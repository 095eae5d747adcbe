/** Minimization of payloads before they are persisted for audit (agent_artifacts.py). */
module AuditPayload {
  datatype Json =
    | Null
    | Bool(b: bool)
    | Num(n: real)
    | Str(s: string)
    | List(items: seq<Json>)
    | Dict(entries: seq<Entry>)

  datatype Entry = Entry(key: string, value: Json)

  const REDACTED_COORDINATE :=
    Dict([Entry("redacted", Str("coordinate")), Entry("reason", Str("agent_artifact_minimized"))])
  const REDACTED_VALUE := Str("[REDACTED]")
  const REDACTED_TEXT := Str("[REDACTED_TEXT]")
  const MAX_LENGTH := 800
  const SUFFIX := "...[truncated]"

  const SECRET_KEYS: seq<string> :=
    ["authorization", "token", "access_token", "refresh_token", "password", "secret", "api_key", "amap_key",
     "amap_jscode", "jscode", "location_encryption_key"]
  const SECRET_ENDINGS: seq<string> := ["_token", "_secret", "_key"]
  const RAW_TEXT_KEYS: seq<string> := ["text", "input_text", "raw_text", "user_text"]

  function Lower(s: string): string {
    if s == "" then "" else [if 'A' <= s[0] <= 'Z' then s[0] - 'A' + 'a' else s[0]] + Lower(s[1..])
  }

  predicate EndsWith(s: string, ending: string) { |ending| <= |s| && s[|s| - |ending|..] == ending }

  predicate SecretKey(key: string) {
    Lower(key) in SECRET_KEYS || exists e :: e in SECRET_ENDINGS && EndsWith(Lower(key), e)
  }

  predicate RawTextKey(key: string) { Lower(key) in RAW_TEXT_KEYS }

  predicate HasKey(entries: seq<Entry>, key: string) { exists i :: 0 <= i < |entries| && entries[i].key == key }

  /** Coordinate keys are recognized in this spelling only. */
  predicate LooksLikeCoordinate(entries: seq<Entry>) {
    (HasKey(entries, "lng") && HasKey(entries, "lat")) || (HasKey(entries, "longitude") && HasKey(entries, "latitude"))
  }

  function Truncate(s: string): string { if |s| > MAX_LENGTH then s[..MAX_LENGTH] + SUFFIX else s }

  function Minimize(v: Json): Json
    decreases v
  {
    match v
    case Dict(entries) => if LooksLikeCoordinate(entries) then REDACTED_COORDINATE else Dict(MinimizeEntries(entries))
    case List(items) => List(MinimizeItems(items))
    case Str(s) => Str(Truncate(s))
    case _ => v
  }

  function MinimizeItems(items: seq<Json>): (r: seq<Json>)
    ensures |r| == |items|
    decreases items
  {
    if items == [] then [] else [Minimize(items[0])] + MinimizeItems(items[1..])
  }

  function MinimizeEntry(e: Entry): Entry
    decreases e
  {
    Entry(e.key, if SecretKey(e.key) then REDACTED_VALUE else if RawTextKey(e.key) then REDACTED_TEXT
        else Minimize(e.value))
  }

  function MinimizeEntries(entries: seq<Entry>): (r: seq<Entry>)
    ensures |r| == |entries| && forall i :: 0 <= i < |r| ==> r[i].key == entries[i].key
    decreases entries
  {
    if entries == [] then [] else [MinimizeEntry(entries[0])] + MinimizeEntries(entries[1..])
  }

  // ------------------------------------------------------------- what is left is clean

  /** No coordinate pair, nothing readable under a secret or raw-text key, no long text, at any depth. */
  predicate Clean(v: Json)
    decreases v
  {
    match v
    case Dict(entries) => !LooksLikeCoordinate(entries) && CleanEntries(entries)
    case List(items) => CleanItems(items)
    case Str(s) => |s| <= MAX_LENGTH || s == s[..MAX_LENGTH] + SUFFIX
    case _ => true
  }

  predicate CleanItems(items: seq<Json>)
    decreases items
  {
    items == [] || (Clean(items[0]) && CleanItems(items[1..]))
  }

  predicate CleanEntry(e: Entry)
    decreases e
  {
    if SecretKey(e.key) then e.value == REDACTED_VALUE else if RawTextKey(e.key) then e.value == REDACTED_TEXT
        else Clean(e.value)
  }

  predicate CleanEntries(entries: seq<Entry>)
    decreases entries
  {
    entries == [] || (CleanEntry(entries[0]) && CleanEntries(entries[1..]))
  }

  lemma {:induction false} LowerFixed(s: string)
    requires forall i :: 0 <= i < |s| ==> !('A' <= s[i] <= 'Z')
    ensures Lower(s) == s
  {
    if s != "" {
      LowerFixed(s[1..]);
      assert s == [s[0]] + s[1..];
    }
  }

  /** The key names of the coordinate placeholder are neither secret nor raw text: no listed name has
      their length and first two characters, and no secret ending its first character there. */
  lemma PlaceholderKeysArePlain(key: string)
    requires key == "redacted" || key == "reason"
    ensures !SecretKey(key) && !RawTextKey(key)
  {
    LowerFixed(key);
    assert key[0] == 'r' && key[1] == 'e' && (|key| == 8 || |key| == 6);
    forall k | k in SECRET_KEYS || k in RAW_TEXT_KEYS
      ensures k != key
    {
      assert |k| == 8 || |k| == 6 ==> k[0] != 'r' || k[1] != 'e';
    }
    forall e | e in SECRET_ENDINGS
      ensures !EndsWith(key, e)
    {
      assert e[0] == '_' && 4 <= |e| <= 7;
      if |e| <= |key| { assert key[|key| - |e|] != '_'; }
    }
  }

  lemma PlaceholderIsClean()
    ensures Clean(REDACTED_COORDINATE) && Minimize(REDACTED_COORDINATE) == REDACTED_COORDINATE
  {
    PlaceholderKeysArePlain("redacted");
    PlaceholderKeysArePlain("reason");
    NoCoordinateKeys();
    hide SecretKey, RawTextKey, LooksLikeCoordinate;
    var entries := REDACTED_COORDINATE.entries;
    PairParts(entries[0], entries[1]);
    assert entries == [entries[0], entries[1]];
  }

  lemma NoCoordinateKeys()
    ensures !LooksLikeCoordinate(REDACTED_COORDINATE.entries)
  {
    var entries := REDACTED_COORDINATE.entries;
    assert forall i :: 0 <= i < |entries| ==> entries[i].key[0] == 'r';
    assert !HasKey(entries, "lng") && !HasKey(entries, "longitude");
  }

  lemma PairParts(a: Entry, b: Entry)
    ensures MinimizeEntries([a, b]) == [MinimizeEntry(a), MinimizeEntry(b)]
    ensures CleanEntries([a, b]) <==> CleanEntry(a) && CleanEntry(b)
  {
    assert [a, b][1..] == [b] && [b][1..] == [];
    hide MinimizeEntry, CleanEntry;
    assert CleanEntries([b]) <==> CleanEntry(b);
    assert MinimizeEntries([b]) == [MinimizeEntry(b)];
  }

  lemma SameKeys(a: seq<Entry>, b: seq<Entry>)
    requires |a| == |b| && forall i :: 0 <= i < |a| ==> a[i].key == b[i].key
    ensures LooksLikeCoordinate(a) == LooksLikeCoordinate(b)
  {
    forall key: string
      ensures HasKey(a, key) == HasKey(b, key)
    {
      if i :| 0 <= i < |a| && a[i].key == key { assert b[i].key == key; }
      if i :| 0 <= i < |b| && b[i].key == key { assert a[i].key == key; }
    }
  }

  /** Whatever is persisted is clean. */
  lemma {:induction false} MinimizedIsClean(v: Json)
    ensures Clean(Minimize(v))
    decreases v
  {
    hide LooksLikeCoordinate, SecretKey, RawTextKey;
    match v
    case Dict(entries) =>
      if LooksLikeCoordinate(entries) {
        PlaceholderIsClean();
      } else {
        MinimizedEntriesAreClean(entries);
        SameKeys(entries, MinimizeEntries(entries));
      }
    case List(items) => MinimizedItemsAreClean(items);
    case Str(s) => assert |s| > MAX_LENGTH ==> Truncate(s)[..MAX_LENGTH] == s[..MAX_LENGTH];
    case _ =>
  }

  lemma {:induction false} MinimizedItemsAreClean(items: seq<Json>)
    ensures CleanItems(MinimizeItems(items))
    decreases items
  {
    if items != [] {
      MinimizedIsClean(items[0]);
      MinimizedItemsAreClean(items[1..]);
    }
  }

  lemma {:induction false} MinimizedEntriesAreClean(entries: seq<Entry>)
    ensures CleanEntries(MinimizeEntries(entries))
    decreases entries
  {
    hide SecretKey, RawTextKey;
    if entries != [] {
      if !SecretKey(entries[0].key) && !RawTextKey(entries[0].key) { MinimizedIsClean(entries[0].value); }
      MinimizedEntriesAreClean(entries[1..]);
    }
  }

  /** Clean payloads are exactly the ones minimization leaves as they are. */
  lemma {:induction false} FixedIffClean(v: Json)
    ensures Minimize(v) == v <==> Clean(v)
    decreases v
  {
    hide LooksLikeCoordinate, SecretKey, RawTextKey;
    match v
    case Dict(entries) =>
      if LooksLikeCoordinate(entries) {
        PlaceholderIsClean();
      } else {
        EntriesFixedIffClean(entries);
      }
    case List(items) => ItemsFixedIffClean(items);
    case Str(s) =>
    case _ =>
  }

  lemma {:induction false} ItemsFixedIffClean(items: seq<Json>)
    ensures MinimizeItems(items) == items <==> CleanItems(items)
    decreases items
  {
    if items != [] {
      FixedIffClean(items[0]);
      ItemsFixedIffClean(items[1..]);
      assert items == [items[0]] + items[1..];
    }
  }

  lemma {:induction false} EntriesFixedIffClean(entries: seq<Entry>)
    ensures MinimizeEntries(entries) == entries <==> CleanEntries(entries)
    decreases entries
  {
    hide SecretKey, RawTextKey;
    if entries != [] {
      if !SecretKey(entries[0].key) && !RawTextKey(entries[0].key) { FixedIffClean(entries[0].value); }
      EntriesFixedIffClean(entries[1..]);
      assert entries == [entries[0]] + entries[1..];
    }
  }

  /** Minimizing again changes nothing, cut texts included. */
  lemma MinimizeIdempotent(v: Json)
    ensures Minimize(Minimize(v)) == Minimize(v)
  {
    MinimizedIsClean(v);
    FixedIffClean(Minimize(v));
  }
}
