/**
 * The three HTML escapers: `escapeHtml` and `escapeAttribute` (src/lib/htmlSanitizer.ts), and
 * `escapeHtml` of src/modules/communication/events.service.ts.
 */
module HtmlEscape {
  import opened Common

  const SPECIALS: seq<char> := ['&', '<', '>', '\"', '\'']

  function Entity(ch: char): string {
    if ch == '&' then "&amp;"
    else if ch == '<' then "&lt;"
    else if ch == '>' then "&gt;"
    else if ch == '\"' then "&quot;"
    else if ch == '\'' then "&#39;"
    else [ch]
  }

  /** One pass over the text with a map from character to entity. */
  function Escape(s: string): string {
    if s == [] then [] else Entity(s[0]) + Escape(s[1..])
  }

  /** `replaceAll(c, by)`. */
  function Replace(s: string, c: char, text: string): string {
    if s == [] then [] else (if s[0] == c then text else [s[0]]) + Replace(s[1..], c, text)
  }

  /** One pass for each character of the list, in that order. */
  function Chain(order: seq<char>, s: string): string
    decreases |order|
  {
    if order == [] then s else Chain(order[1..], Replace(s, order[0], Entity(order[0])))
  }

  function EscapeHtml(text: Option<string>): string {
    if text == None || text == Some("") then "" else Escape(text.value)
  }

  function EscapeAttribute(text: Option<string>): string {
    if text == None || text == Some("") then ""
    else
      var amp := Replace(text.value, '&', "&amp;");
      var quot := Replace(amp, '\"', "&quot;");
      var apos := Replace(quot, '\'', "&#39;");
      var lt := Replace(apos, '<', "&lt;");
      Replace(lt, '>', "&gt;")
  }

  function EscapeEventHtml(value: string): string {
    var amp := Replace(value, '&', "&amp;");
    var lt := Replace(amp, '<', "&lt;");
    var gt := Replace(lt, '>', "&gt;");
    var quot := Replace(gt, '\"', "&quot;");
    Replace(quot, '\'', "&#39;")
  }

  // --- Chains of passes -----------------------------------------------------------------

  lemma {:induction false} ReplaceJoin(a: string, b: string, c: char, text: string)
    ensures Replace(a + b, c, text) == Replace(a, c, text) + Replace(b, c, text)
  {
    if a == [] {
      assert a + b == b;
    } else {
      assert (a + b)[1..] == a[1..] + b;
      ReplaceJoin(a[1..], b, c, text);
    }
  }

  lemma {:induction false} ChainJoin(order: seq<char>, a: string, b: string)
    ensures Chain(order, a + b) == Chain(order, a) + Chain(order, b)
    decreases |order|
  {
    if order == [] {
    } else {
      var c := order[0];
      ReplaceJoin(a, b, c, Entity(c));
      ChainJoin(order[1..], Replace(a, c, Entity(c)), Replace(b, c, Entity(c)));
    }
  }

  lemma {:induction false} ReplaceAbsent(s: string, c: char, text: string)
    requires c !in s
    ensures Replace(s, c, text) == s
  {
    if s == [] {
    } else {
      ReplaceAbsent(s[1..], c, text);
      assert s == [s[0]] + s[1..];
    }
  }

  lemma {:induction false} ChainAbsent(order: seq<char>, s: string)
    requires forall c :: c in order ==> c !in s
    ensures Chain(order, s) == s
    decreases |order|
  {
    if order == [] {
    } else {
      ReplaceAbsent(s, order[0], Entity(order[0]));
      ChainAbsent(order[1..], s);
    }
  }

  ghost predicate NoRepeats(order: seq<char>) {
    forall i, k :: 0 <= i < k < |order| ==> order[i] != order[k]
  }

  /** Entities are made of `&` and of characters that no pass looks for. */
  lemma EntityText(ch: char, c: char)
    requires ch in SPECIALS && c in SPECIALS
    ensures c in Entity(ch) <==> c == '&'
    ensures Entity(ch)[0] == '&' && '&' !in Entity(ch)[1..]
  {}

  lemma ReplaceOne(ch: char, c: char, text: string)
    ensures Replace([ch], c, text) == if ch == c then text else [ch]
  {
    assert Replace([], c, text) == [];
    assert [ch][1..] == [];
  }

  /** Passes over the specials that leave `&` to none of the later ones replace a character once. */
  lemma {:induction false} ChainOne(order: seq<char>, ch: char)
    requires NoRepeats(order) && forall c :: c in order ==> c in SPECIALS
    requires forall i :: 0 < i < |order| ==> order[i] != '&'
    ensures Chain(order, [ch]) == if ch in order then Entity(ch) else [ch]
    decreases |order|
  {
    if order == [] {
    } else {
      ReplaceOne(ch, order[0], Entity(order[0]));
      if ch == order[0] {
        forall c | c in order[1..] ensures c !in Entity(ch) {
          EntityText(ch, c);
        }
        ChainAbsent(order[1..], Entity(ch));
      } else {
        ChainOne(order[1..], ch);
      }
    }
  }

  /** With `&` first, the order of the other passes does not matter. */
  lemma {:induction false} AmpersandFirst(order: seq<char>, s: string)
    requires NoRepeats(order) && (forall c :: c in order <==> c in SPECIALS) && order != [] && order[0] == '&'
    ensures Chain(order, s) == Escape(s)
  {
    if s == [] {
      ChainAbsent(order, s);
    } else {
      assert s == [s[0]] + s[1..];
      ChainJoin(order, [s[0]], s[1..]);
      assert forall i :: 0 < i < |order| ==> order[i] != order[0];
      ChainOne(order, s[0]);
      AmpersandFirst(order, s[1..]);
    }
  }

  /** With another pass before it, `&` is escaped twice in what that pass wrote. */
  lemma {:induction false} AmpersandLater(order: seq<char>, s: string)
    requires NoRepeats(order) && '&' in order && |s| > 0 && s[0] == '&'
    requires forall c :: c in order ==> c in SPECIALS && (c == '&' || c !in s)
    requires '&' !in s[1..]
    ensures Chain(order, s) == "&amp;" + s[1..]
    decreases |order|
  {
    var c := order[0];
    assert s == ['&'] + s[1..];
    if c == '&' {
      ReplaceJoin(['&'], s[1..], '&', "&amp;");
      ReplaceOne('&', '&', "&amp;");
      ReplaceAbsent(s[1..], '&', "&amp;");
      var t := "&amp;" + s[1..];
      forall x | x in order[1..] ensures x !in t {
        assert x != order[0] && x in order;
        EntityText('&', x);
      }
      ChainAbsent(order[1..], t);
    } else {
      ReplaceAbsent(s, c, Entity(c));
      assert '&' in order[1..];
      AmpersandLater(order[1..], s);
    }
  }

  /** A chain of the five passes is the one-pass escaper on every text exactly when `&` comes first. */
  lemma ChainIsEscape(order: seq<char>)
    requires NoRepeats(order) && forall c :: c in order <==> c in SPECIALS
    ensures order != []
    ensures (forall s :: Chain(order, s) == Escape(s)) <==> order[0] == '&'
  {
    assert '&' in SPECIALS;
    if order[0] == '&' {
      forall s ensures Chain(order, s) == Escape(s) {
        AmpersandFirst(order, s);
      }
    } else {
      var ch := order[0];
      var rest := order[1..];
      ReplaceOne(ch, ch, Entity(ch));
      forall x | x in rest ensures x in SPECIALS && (x == '&' || x !in Entity(ch)) {
        assert x in order;
        EntityText(ch, x);
      }
      assert ch in order;
      EntityText(ch, '&');
      assert '&' in rest;
      AmpersandLater(rest, Entity(ch));
      assert Chain(order, [ch]) == "&amp;" + Entity(ch)[1..];
      assert [ch][1..] == [];
      assert Escape([ch]) == Entity(ch) + Escape([]);
      assert Escape([ch]) == Entity(ch);
      assert |Chain(order, [ch])| > |Escape([ch])|;
    }
  }

  lemma AttributePasses(s: string)
    ensures EscapeAttribute(Some(s)) == Chain(['&', '\"', '\'', '<', '>'], s)
  {
    assert ['&', '\"', '\'', '<', '>'][1..] == ['\"', '\'', '<', '>']
        && ['\"', '\'', '<', '>'][1..] == ['\'', '<', '>'];
    assert ['\'', '<', '>'][1..] == ['<', '>'] && ['<', '>'][1..] == ['>'] && ['>'][1..] == [];
  }

  lemma EventPasses(s: string)
    ensures EscapeEventHtml(s) == Chain(['&', '<', '>', '\"', '\''], s)
  {
    assert ['&', '<', '>', '\"', '\''][1..] == ['<', '>', '\"', '\'']
        && ['<', '>', '\"', '\''][1..] == ['>', '\"', '\''];
    assert ['>', '\"', '\''][1..] == ['\"', '\''] && ['\"', '\''][1..] == ['\''] && ['\''][1..] == [];
  }

  /** The three escapers of the repository are one function. */
  lemma EscapersAgree(s: string)
    ensures EscapeHtml(Some(s)) == Escape(s) && EscapeAttribute(Some(s)) == Escape(s) && EscapeEventHtml(s) == Escape(s)
    ensures EscapeHtml(None) == "" && EscapeAttribute(None) == ""
  {
    AttributePasses(s);
    EventPasses(s);
    AmpersandFirst(['&', '\"', '\'', '<', '>'], s);
    AmpersandFirst(['&', '<', '>', '\"', '\''], s);
  }

  // --- What the output looks like ----------------------------------------------------------------

  /** The reader's side: entities become the characters they stand for, from left to right. */
  function Unescape(s: string): string
    decreases |s|
  {
    if s == [] then []
    else if "&amp;" <= s then "&" + Unescape(s[5..])
    else if "&lt;" <= s then "<" + Unescape(s[4..])
    else if "&gt;" <= s then ">" + Unescape(s[4..])
    else if "&quot;" <= s then "\"" + Unescape(s[6..])
    else if "&#39;" <= s then "\'" + Unescape(s[5..])
    else [s[0]] + Unescape(s[1..])
  }

  /** Which entity a text starts with is decided by its second and third characters. */
  lemma StartsWith(ch: char, other: char, rest: string)
    requires other in SPECIALS
    ensures Entity(other) <= Entity(ch) + rest <==> ch == other
  {
    var all := Entity(ch) + rest;
    assert all[0] == Entity(ch)[0];
    if ch in SPECIALS {
      assert all[1] == Entity(ch)[1] && all[2] == Entity(ch)[2];
    }
    if ch == other {
      assert all[..|Entity(ch)|] == Entity(ch);
    }
  }

  lemma UnescapeEntity(ch: char, rest: string)
    ensures Unescape(Entity(ch) + rest) == [ch] + Unescape(rest)
  {
    assert (Entity(ch) + rest)[|Entity(ch)|..] == rest;
    StartsWith(ch, '&', rest);
    StartsWith(ch, '<', rest);
    StartsWith(ch, '>', rest);
    StartsWith(ch, '\"', rest);
    StartsWith(ch, '\'', rest);
  }

  /** Unescaping gives the text back. */
  lemma {:induction false} UnescapeEscape(s: string)
    ensures Unescape(Escape(s)) == s
  {
    if s == [] {
    } else {
      UnescapeEscape(s[1..]);
      UnescapeEntity(s[0], Escape(s[1..]));
      assert s == [s[0]] + s[1..];
    }
  }

  /** So two texts that look the same escaped are the same. */
  lemma EscapeInjective(s: string, t: string)
    requires Escape(s) == Escape(t)
    ensures s == t
  {
    UnescapeEscape(s);
    UnescapeEscape(t);
  }

  /** No raw quote or angle bracket is left, and every `&` starts one of the five entities. */
  ghost predicate Safe(s: string) {
    forall i :: 0 <= i < |s| ==>
      && (s[i] in SPECIALS ==> s[i] == '&')
      && (s[i] == '&' ==> exists ch :: ch in SPECIALS && Entity(ch) <= s[i..])
  }

  lemma {:induction false} EscapeSafe(s: string)
    ensures Safe(Escape(s))
  {
    if s == [] {
    } else {
      var e, rest := Entity(s[0]), Escape(s[1..]);
      EscapeSafe(s[1..]);
      forall i | 0 <= i < |e + rest|
        ensures (e + rest)[i] in SPECIALS ==> (e + rest)[i] == '&'
        ensures (e + rest)[i] == '&' ==> exists ch :: ch in SPECIALS && Entity(ch) <= (e + rest)[i..]
      {
        if i >= |e| {
          assert (e + rest)[i..] == rest[i - |e|..];
          assert (e + rest)[i] == rest[i - |e|];
        } else if s[0] in SPECIALS {
          EntityText(s[0], '&');
          assert (e + rest)[i] == e[i] && e[i] in e;
          assert i > 0 ==> e[i] == e[1..][i - 1];
          if e[i] in SPECIALS {
            EntityText(s[0], e[i]);
            assert Entity(s[0]) <= (e + rest)[0..];
          }
        }
      }
    }
  }

  /** Escaping changes a text exactly when there is something to escape. */
  lemma {:induction false} EscapeFixesPlain(s: string)
    ensures Escape(s) == s <==> forall c :: c in s ==> c !in SPECIALS
    ensures |Escape(s)| >= |s|
  {
    if s == [] {
    } else {
      EscapeFixesPlain(s[1..]);
      assert s == [s[0]] + s[1..];
      assert s[0] !in SPECIALS ==> Entity(s[0]) == [s[0]];
      if s[0] in SPECIALS {
        assert |Entity(s[0])| > 1;
      }
    }
  }
}
