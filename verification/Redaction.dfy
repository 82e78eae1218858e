/** Redaction of event data, and the check that rejects sensitive keys. */
module Redaction {
  import opened Basics

  /** Event data.  A dictionary keeps its keys in order. */
  datatype Json =
    | Text(text: string) | Number(value: real) | Truth(holds: bool) | Null
    | List(items: seq<Json>) | Dict(entries: seq<(string, Json)>)

  const MARKER := Text("[REDACTED]")

  const SENSITIVE_KEYS := {
    "password", "passwd", "pwd", "password_hash", "access_token", "refresh_token", "token", "authorization", "auth",
    "jwt", "api_key", "apikey", "api-key", "client_secret", "api_secret", "secret", "db_password", "database_password",
    "credit_card", "card_number", "cvv", "cvc", "ssn", "id_number", "pin"}

  // ---- Keys ----

  /** What `str.strip` takes off. */
  predicate IsSpace(c: char) {
    || '\U{0009}' <= c <= '\U{000D}' || '\U{001C}' <= c <= '\U{0020}' || c == '\U{0085}' || c == '\U{00A0}'
    || c == '\U{1680}' || '\U{2000}' <= c <= '\U{200A}' || c == '\U{2028}' || c == '\U{2029}' || c == '\U{202F}'
    || c == '\U{205F}' || c == '\U{3000}'
  }

  function StripLeft(s: string): string {
    if s != "" && IsSpace(s[0]) then StripLeft(s[1..]) else s
  }

  function StripRight(s: string): string {
    if s != "" && IsSpace(s[|s| - 1]) then StripRight(s[..|s| - 1]) else s
  }

  /** Lower case as far as it can yield a letter of a key: the ASCII letters, and the Kelvin
      sign, the one other character that becomes one of them. */
  function LowerChar(c: char): char {
    if 'A' <= c <= 'Z' then (c as int + 32) as char else if c == '\U{212A}' then 'k' else c
  }

  /** `s.lower().replace("-", "_")` */
  function Folded(s: string): string {
    seq(|s|, i requires 0 <= i < |s| => if s[i] == '-' then '_' else LowerChar(s[i]))
  }

  function Normalized(key: string): string {
    Folded(StripRight(StripLeft(key)))
  }

  predicate IsSensitiveKey(key: string) {
    Normalized(key) in SENSITIVE_KEYS
  }

  // ---- The two walks ----

  function Redact(v: Json): Json {
    match v
    case Dict(es) =>
      Dict(seq(|es|, i requires 0 <= i < |es| => (es[i].0, if IsSensitiveKey(es[i].0) then MARKER
          else Redact(es[i].1))))
    case List(items) => List(seq(|items|, i requires 0 <= i < |items| => Redact(items[i])))
    case _ => v
  }

  /** `ensure_no_sensitive_data` passes. */
  predicate Accepts(v: Json) {
    match v
    case Dict(es) => forall i :: 0 <= i < |es| ==> !IsSensitiveKey(es[i].0) && Accepts(es[i].1)
    case List(items) => forall i :: 0 <= i < |items| ==> Accepts(items[i])
    case _ => true
  }

  /** Sensitive keys hold nothing but the marker. */
  predicate Clean(v: Json) {
    match v
    case Dict(es) => forall i :: 0 <= i < |es| ==> if IsSensitiveKey(es[i].0) then es[i].1 == MARKER else Clean(es[i].1)
    case List(items) => forall i :: 0 <= i < |items| ==> Clean(items[i])
    case _ => true
  }

  /** The same tree but for the values under sensitive keys: same keys, same list lengths, same
      other values. */
  predicate SameOutside(v: Json, w: Json)
    decreases v
  {
    match v
    case Dict(es) =>
      && w.Dict? && |w.entries| == |es|
      && forall i :: 0 <= i < |es| ==>
           w.entries[i].0 == es[i].0 && (IsSensitiveKey(es[i].0) || SameOutside(es[i].1, w.entries[i].1))
    case List(items) =>
      w.List? && |w.items| == |items| && forall i :: 0 <= i < |items| ==> SameOutside(items[i], w.items[i])
    case _ => w == v
  }

  // ---- What redaction is ----

  lemma {:induction false} RedactCleans(v: Json)
    ensures Clean(Redact(v)) && SameOutside(v, Redact(v))
  {
    match v {
      case Dict(es) =>
        forall i | 0 <= i < |es| ensures Clean(Redact(es[i].1)) && SameOutside(es[i].1, Redact(es[i].1)) {
          RedactCleans(es[i].1);
        }
      case List(items) =>
        forall i | 0 <= i < |items| ensures Clean(Redact(items[i])) && SameOutside(items[i], Redact(items[i])) {
          RedactCleans(items[i]);
        }
      case _ =>
    }
  }

  /** Two clean trees that agree outside sensitive keys are the same. */
  lemma {:induction false} CleanIsDetermined(v: Json, a: Json, b: Json)
    requires SameOutside(v, a) && SameOutside(v, b) && Clean(a) && Clean(b)
    ensures a == b
    decreases v
  {
    match v {
      case Dict(es) =>
        forall i | 0 <= i < |es| ensures a.entries[i] == b.entries[i] {
          if !IsSensitiveKey(es[i].0) {
            CleanIsDetermined(es[i].1, a.entries[i].1, b.entries[i].1);
          }
        }
        assert a.entries == b.entries;
      case List(items) =>
        forall i | 0 <= i < |items| ensures a.items[i] == b.items[i] {
          CleanIsDetermined(items[i], a.items[i], b.items[i]);
        }
        assert a.items == b.items;
      case _ =>
    }
  }

  lemma {:induction false} SameAsItself(v: Json)
    ensures SameOutside(v, v)
  {
    match v {
      case Dict(es) =>
        forall i | 0 <= i < |es| ensures SameOutside(es[i].1, es[i].1) {
          SameAsItself(es[i].1);
        }
      case List(items) =>
        forall i | 0 <= i < |items| ensures SameOutside(items[i], items[i]) {
          SameAsItself(items[i]);
        }
      case _ =>
    }
  }

  /** Redaction is exactly: every value under a sensitive key becomes the marker, at any depth,
      and nothing else changes. */
  lemma {:induction false} RedactExactly(v: Json, w: Json)
    ensures w == Redact(v) <==> SameOutside(v, w) && Clean(w)
  {
    RedactCleans(v);
    if SameOutside(v, w) && Clean(w) {
      CleanIsDetermined(v, w, Redact(v));
    }
  }

  /** Redaction changes nothing exactly when sensitive keys already hold the marker, and so
      redacting twice is redacting once. */
  lemma {:induction false} UnchangedExactly(v: Json)
    ensures Redact(v) == v <==> Clean(v)
    ensures Redact(Redact(v)) == Redact(v)
  {
    SameAsItself(v);
    RedactExactly(v, v);
    RedactCleans(v);
    SameAsItself(Redact(v));
    RedactExactly(Redact(v), Redact(v));
  }

  // ---- Against the check ----

  lemma {:induction false} AcceptedIsClean(v: Json)
    requires Accepts(v)
    ensures Clean(v)
  {
    match v {
      case Dict(es) =>
        forall i | 0 <= i < |es| ensures Clean(es[i].1) {
          AcceptedIsClean(es[i].1);
        }
      case List(items) =>
        forall i | 0 <= i < |items| ensures Clean(items[i]) {
          AcceptedIsClean(items[i]);
        }
      case _ =>
    }
  }

  /** Whether data is accepted depends on nothing under sensitive keys; redacted data is
      accepted exactly when the data was. */
  lemma {:induction false} AcceptsAlike(v: Json, w: Json)
    requires SameOutside(v, w)
    ensures Accepts(v) <==> Accepts(w)
    decreases v
  {
    match v {
      case Dict(es) =>
        forall i | 0 <= i < |es| && !IsSensitiveKey(es[i].0) ensures Accepts(es[i].1) <==> Accepts(w.entries[i].1) {
          AcceptsAlike(es[i].1, w.entries[i].1);
        }
        if Accepts(v) {
          forall i | 0 <= i < |es| ensures !IsSensitiveKey(w.entries[i].0) && Accepts(w.entries[i].1) {
            assert !IsSensitiveKey(es[i].0) && Accepts(es[i].1);
          }
        }
        if Accepts(w) {
          forall i | 0 <= i < |es| ensures !IsSensitiveKey(es[i].0) && Accepts(es[i].1) {
            assert !IsSensitiveKey(w.entries[i].0) && Accepts(w.entries[i].1);
          }
        }
      case List(items) =>
        forall i | 0 <= i < |items| ensures Accepts(items[i]) <==> Accepts(w.items[i]) {
          AcceptsAlike(items[i], w.items[i]);
        }
      case _ =>
    }
  }

  // ---- The event ----

  /** The `metadata` of `to_log_service_item`, once the event was accepted. */
  function Metadata(data: seq<(string, Json)>): Result<Json> {
    if Accepts(Dict(data)) then Ok(Redact(Dict(data))) else Err(BadRequest)
  }

  /** An accepted event's metadata is its data; an event with a sensitive key is refused even
      after redaction. */
  lemma MetadataIsData(data: seq<(string, Json)>)
    ensures Metadata(data).Ok? ==> Metadata(data).value == Dict(data)
    ensures Metadata(data).Ok? <==> Metadata(Redact(Dict(data)).entries).Ok?
  {
    RedactCleans(Dict(data));
    AcceptsAlike(Dict(data), Redact(Dict(data)));
    if Accepts(Dict(data)) {
      AcceptedIsClean(Dict(data));
      UnchangedExactly(Dict(data));
    }
  }

  // ---- Paths ----

  /** What stands at a path of positions. */
  function Reach(v: Json, path: seq<nat>): Option<Json>
    decreases |path|
  {
    if path == [] then Some(v)
    else if v.Dict? && path[0] < |v.entries| then Reach(v.entries[path[0]].1, path[1..])
    else if v.List? && path[0] < |v.items| then Reach(v.items[path[0]], path[1..])
    else None
  }

  /** The path passes a sensitive key. */
  predicate PassesSensitive(v: Json, path: seq<nat>)
    decreases |path|
  {
    path != [] &&
    if v.Dict? && path[0] < |v.entries| then IsSensitiveKey(v.entries[path[0]].0)
        || PassesSensitive(v.entries[path[0]].1, path[1..])
    else if v.List? && path[0] < |v.items| then PassesSensitive(v.items[path[0]], path[1..])
    else false
  }

  /** Nothing that stood below a sensitive key can be reached any more: the path ends at the
      marker or leads nowhere; along other paths each value is redacted in its place. */
  lemma {:induction false} RedactAlongPaths(v: Json, path: seq<nat>)
    ensures PassesSensitive(v, path) ==> Reach(Redact(v), path) == None || Reach(Redact(v), path) == Some(MARKER)
    ensures !PassesSensitive(v, path) ==>
      Reach(Redact(v), path) == match Reach(v, path) case None => None case Some(x) => Some(Redact(x))
    decreases |path|
  {
    if path != [] {
      if v.Dict? && path[0] < |v.entries| {
        RedactAlongPaths(v.entries[path[0]].1, path[1..]);
      } else if v.List? && path[0] < |v.items| {
        RedactAlongPaths(v.items[path[0]], path[1..]);
      }
    }
  }

  // ---- Spellings of a key ----

  /** A character of a key, or another way to write it: upper case, or a dash for an underscore. */
  predicate Spells(written: char, meant: char) {
    || written == meant
    || ('a' <= meant <= 'z' && written as int + 32 == meant as int)
    || (meant == '_' && written == '-')
  }

  predicate PlainKey(key: string) {
    key != "" && forall i :: 0 <= i < |key| ==> 'a' <= key[i] <= 'z' || key[i] == '_'
  }

  predicate Blank(s: string) {
    forall i :: 0 <= i < |s| ==> IsSpace(s[i])
  }

  lemma {:induction false} StripsLeft(blank: string, rest: string)
    requires Blank(blank) && (rest != "" ==> !IsSpace(rest[0]))
    ensures StripLeft(blank + rest) == rest
  {
    if blank != "" {
      assert (blank + rest)[1..] == blank[1..] + rest;
      StripsLeft(blank[1..], rest);
    } else {
      assert blank + rest == rest;
    }
  }

  lemma {:induction false} StripsRight(rest: string, blank: string)
    requires Blank(blank) && (rest != "" ==> !IsSpace(rest[|rest| - 1]))
    ensures StripRight(rest + blank) == rest
  {
    if blank != "" {
      var n := |blank| - 1;
      assert (rest + blank)[..|rest| + n] == rest + blank[..n];
      StripsRight(rest, blank[..n]);
    } else {
      assert rest + blank == rest;
    }
  }

  predicate SpelledAs(written: string, key: string) {
    |written| == |key| && forall i :: 0 <= i < |key| ==> Spells(written[i], key[i])
  }

  lemma FoldsSpelling(written: string, key: string)
    requires PlainKey(key) && SpelledAs(written, key)
    ensures Folded(written) == key && !IsSpace(written[0]) && !IsSpace(written[|written| - 1])
  {
    assert Spells(written[0], key[0]) && Spells(written[|key| - 1], key[|key| - 1]);
    forall i | 0 <= i < |key| ensures Folded(written)[i] == key[i] {
      assert Spells(written[i], key[i]);
    }
  }

  lemma NormalizesSpelling(key: string, written: string, before: string, after: string)
    requires PlainKey(key) && SpelledAs(written, key) && Blank(before) && Blank(after)
    ensures Normalized(before + (written + after)) == key
  {
    FoldsSpelling(written, key);
    assert (written + after)[0] == written[0];
    StripsLeft(before, written + after);
    StripsRight(written, after);
  }

  /** A sensitive key is recognised in any letter case, with dashes for underscores, and between
      blanks. */
  lemma SpellingsAreSensitive(key: string, written: string, before: string, after: string)
    requires key in SENSITIVE_KEYS && PlainKey(key)
    requires SpelledAs(written, key) && Blank(before) && Blank(after)
    ensures IsSensitiveKey(before + (written + after))
  {
    NormalizesSpelling(key, written, before, after);
  }
}
