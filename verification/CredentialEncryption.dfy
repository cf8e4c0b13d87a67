/**
 * Versioned credential encryption (src/lib/credentialEncryption.ts).  The cipher is a
 * parameter: `seal` is AES-GCM under a key and a nonce, `unseal` its authenticated inverse.
 */
module CredentialEncryption {
  import opened Common

  datatype Cipher = Cipher(seal: (string, string, string) -> string, unseal: (string, string) -> Option<string>)

  /** What was sealed under a key opens under it, to the same text. */
  ghost predicate Sound(c: Cipher) {
    forall key, text, nonce :: c.unseal(key, c.seal(key, text, nonce)) == Some(text)
  }

  /** Nothing else opens it: the tag does not verify under another key. */
  ghost predicate Authentic(c: Cipher) {
    forall key, other, text, nonce :: c.unseal(other, c.seal(key, text, nonce)).Some? ==> other == key
  }

  /** One entry of CREDENTIAL_ENCRYPTION_KEYS_JSON; the version is None when it is not an integer. */
  datatype Entry = Entry(version: Option<int>, key: string)

  /** `entries` is None when there is no key list, or one that does not parse. */
  datatype Config = Config(activeVersion: int, activeKey: string, entries: Option<seq<Entry>>,
                           normalize: string -> string)

  datatype Payload = Payload(version: Option<int>, box: string)

  predicate Usable(e: Entry) { e.version.Some? && e.version.value > 0 && e.key != "" }

  function AddEntries(cfg: Config, ring: map<int, string>, entries: seq<Entry>): map<int, string> {
    if entries == [] then ring
    else
      var e, before := entries[|entries| - 1], AddEntries(cfg, ring, entries[..|entries| - 1]);
      if Usable(e) then before[e.version.value := cfg.normalize(e.key)] else before
  }

  function Ring(cfg: Config): map<int, string> {
    AddEntries(cfg, map[cfg.activeVersion := cfg.normalize(cfg.activeKey)], OrElse(cfg.entries, []))
  }

  ghost predicate ListsUsable(entries: seq<Entry>, v: int) {
    exists i :: 0 <= i < |entries| && entries[i].version == Some(v) && v >= 1 && |entries[i].key| > 0
  }

  method ParseKeyRing(cfg: Config) returns (ring: map<int, string>)
    ensures ring == Ring(cfg)
    ensures forall v :: v in ring <==> v == cfg.activeVersion || ListsUsable(OrElse(cfg.entries, []), v)
  {
    ring := map[cfg.activeVersion := cfg.normalize(cfg.activeKey)];
    RingHasActive(cfg, map[cfg.activeVersion := cfg.normalize(cfg.activeKey)], OrElse(cfg.entries, []));
    if cfg.entries.Some? {
      var entries := cfg.entries.value;
      var i := 0;
      while i < |entries|
        invariant 0 <= i <= |entries|
        invariant ring == AddEntries(cfg, map[cfg.activeVersion := cfg.normalize(cfg.activeKey)], entries[..i])
      {
        var e := entries[i];
        assert entries[..i + 1][..i] == entries[..i];
        if e.version.Some? && e.version.value > 0 && e.key != "" {
          ring := ring[e.version.value := cfg.normalize(e.key)];
        }
        i := i + 1;
      }
      assert entries[..i] == entries;
    }
    forall v ensures v in ring <==> v == cfg.activeVersion || ListsUsable(OrElse(cfg.entries, []), v) {
      RingHasOnly(cfg, map[cfg.activeVersion := cfg.normalize(cfg.activeKey)], OrElse(cfg.entries, []), v);
    }
  }

  lemma {:induction false} RingHasActive(cfg: Config, ring: map<int, string>, entries: seq<Entry>)
    requires cfg.activeVersion in ring
    ensures cfg.activeVersion in AddEntries(cfg, ring, entries)
  {
    if entries == [] {
    } else {
      RingHasActive(cfg, ring, entries[..|entries| - 1]);
    }
  }

  /** The last usable entry for a version decides its key, also for the active version. */
  lemma {:induction false} LastEntryWins(cfg: Config, ring: map<int, string>, entries: seq<Entry>, i: nat)
    requires i < |entries| && Usable(entries[i])
    requires forall k :: i < k < |entries| && Usable(entries[k]) ==> entries[k].version != entries[i].version
    ensures var v := entries[i].version.value;
            v in AddEntries(cfg, ring, entries) && AddEntries(cfg, ring, entries)[v] == cfg.normalize(entries[i].key)
  {
    if i == |entries| - 1 {
    } else {
      LastEntryWins(cfg, ring, entries[..|entries| - 1], i);
    }
  }

  /** The ring has the active version and the versions with a usable entry, and no other. */
  lemma {:induction false} RingHasOnly(cfg: Config, ring: map<int, string>, entries: seq<Entry>, v: int)
    ensures v in AddEntries(cfg, ring, entries)
            <==> v in ring || ListsUsable(entries, v)
  {
    if entries == [] {
    } else {
      var init, last := entries[..|entries| - 1], entries[|entries| - 1];
      RingHasOnly(cfg, ring, init, v);
      if i :| 0 <= i < |init| && Usable(init[i]) && init[i].version == Some(v) {
        assert entries[i] == init[i];
      }
      if i :| 0 <= i < |entries| && Usable(entries[i]) && entries[i].version == Some(v) {
        assert i < |init| ==> init[i] == entries[i];
      }
    }
  }

  /** A version that no usable entry names keeps the key it had. */
  lemma {:induction false} UnlistedKeepsKey(cfg: Config, ring: map<int, string>, entries: seq<Entry>, v: int)
    requires v in ring && !ListsUsable(entries, v)
    ensures v in AddEntries(cfg, ring, entries) && AddEntries(cfg, ring, entries)[v] == ring[v]
  {
    if entries == [] {
    } else {
      var init, last := entries[..|entries| - 1], entries[|entries| - 1];
      assert entries[|entries| - 1] == last;
      forall i | 0 <= i < |init| ensures !(Usable(init[i]) && init[i].version == Some(v)) {
        assert init[i] == entries[i];
      }
      UnlistedKeepsKey(cfg, ring, init, v);
    }
  }

  /** The key a version is decrypted with: its own, else the active one. */
  function KeyFor(cfg: Config, version: int): string {
    RingHasActive(cfg, map[cfg.activeVersion := cfg.normalize(cfg.activeKey)], OrElse(cfg.entries, []));
    if version in Ring(cfg) then Ring(cfg)[version] else Ring(cfg)[cfg.activeVersion]
  }

  /** Without an entry for the active version the active key is the one it is encrypted with. */
  lemma UnlistedActive(cfg: Config)
    requires !ListsUsable(OrElse(cfg.entries, []), cfg.activeVersion)
    ensures KeyFor(cfg, cfg.activeVersion) == cfg.normalize(cfg.activeKey)
  {
    UnlistedKeepsKey(cfg, map[cfg.activeVersion := cfg.normalize(cfg.activeKey)], OrElse(cfg.entries, []),
                     cfg.activeVersion);
  }

  /**
   * The key for a version: the last usable entry of that version has it; without one it is the active key, for the
   * active version, and for any other the key of the active version.
   */
  lemma KeyForExactly(cfg: Config, v: int)
    ensures var entries := OrElse(cfg.entries, []);
            && (forall i :: LastUsable(entries, i, v) ==> KeyFor(cfg, v) == cfg.normalize(entries[i].key))
            && (!ListsUsable(entries, v) && v == cfg.activeVersion ==> KeyFor(cfg, v) == cfg.normalize(cfg.activeKey))
            && (!ListsUsable(entries, v) && v != cfg.activeVersion ==>
                  KeyFor(cfg, v) == KeyFor(cfg, cfg.activeVersion))
  {
    var entries, start := OrElse(cfg.entries, []), map[cfg.activeVersion := cfg.normalize(cfg.activeKey)];
    forall i | LastUsable(entries, i, v) ensures KeyFor(cfg, v) == cfg.normalize(entries[i].key) {
      LastEntryWins(cfg, start, entries, i);
    }
    if !ListsUsable(entries, v) {
      RingHasOnly(cfg, start, entries, v);
      if v == cfg.activeVersion {
        UnlistedActive(cfg);
      }
    }
  }

  ghost predicate LastUsable(entries: seq<Entry>, i: int, v: int) {
    && 0 <= i < |entries| && entries[i].version == Some(v) && v >= 1 && |entries[i].key| > 0
    && forall k :: i < k < |entries| && entries[k].version == Some(v) ==> |entries[k].key| == 0
  }

  function Encrypt(cfg: Config, c: Cipher, text: string, nonce: string): Payload {
    Payload(Some(cfg.activeVersion), c.seal(KeyFor(cfg, cfg.activeVersion), text, nonce))
  }

  function DecryptByVersion(cfg: Config, c: Cipher, p: Payload, version: int): Option<string> {
    c.unseal(KeyFor(cfg, version), p.box)
  }

  function Decrypt(cfg: Config, c: Cipher, p: Payload): Option<string> {
    DecryptByVersion(cfg, c, p, OrElse(p.version, cfg.activeVersion))
  }

  /** Under one configuration, decrypting undoes encrypting. */
  lemma RoundTrip(cfg: Config, c: Cipher, text: string, nonce: string)
    requires Sound(c)
    ensures Decrypt(cfg, c, Encrypt(cfg, c, text, nonce)) == Some(text)
  {}

  /** A payload that does not say its version is opened with the active key, under any version with the key of that. */
  lemma OpensWith(cfg: Config, c: Cipher, key: string, text: string, nonce: string, version: Option<int>)
    requires Sound(c) && Authentic(c)
    ensures Decrypt(cfg, c, Payload(version, c.seal(key, text, nonce)))
         == if key == KeyFor(cfg, if version.Some? then version.value else cfg.activeVersion) then Some(text) else None
  {}

  /** Across a change of configuration: exactly when the new ring finds the old key for the old version. */
  lemma SurvivesRotation(was: Config, cfg: Config, c: Cipher, text: string, nonce: string)
    requires Sound(c) && Authentic(c)
    ensures Decrypt(cfg, c, Encrypt(was, c, text, nonce)) == Some(text)
            <==> KeyFor(cfg, was.activeVersion) == KeyFor(was, was.activeVersion)
    ensures Decrypt(cfg, c, Encrypt(was, c, text, nonce)) in {None, Some(text)}
  {
    var p := Encrypt(was, c, text, nonce);
    assert p.box == c.seal(KeyFor(was, was.activeVersion), text, nonce);
    assert Decrypt(cfg, c, p) == c.unseal(KeyFor(cfg, was.activeVersion), p.box);
  }
}
