/** The canonical serialization of an audit row (migrations/0007): one
    escaping printer over fourteen columns, and a decoder that undoes it. */
module AuditPayload {
  import opened Options
  import opened Sequences
  import Decimal
  import Utf8

  /** The audit columns that the hash chain covers; `at` in microseconds since
      the epoch, `details` the text of the stored jsonb value. */
  datatype Columns = Columns(
    at: int,
    traceId: Option<string>,
    messageId: Option<string>,
    stage: Option<string>,
    appId: Option<string>,
    capability: Option<string>,
    capabilitySetVer: Option<int>,
    endpoint: Option<string>,
    routeStrategy: Option<string>,
    deliveryChannel: Option<string>,
    recipientUserId: Option<int>,
    recipientChatId: Option<int>,
    errorCode: Option<string>,
    details: Option<string>)

  /** SQL `replace` with a pattern of one character. */
  function Replace(s: string, c: char, with: string): string {
    if s == "" then "" else (if s[0] == c then with else [s[0]]) + Replace(s[1..], c, with)
  }

  /** `audit_chain_field` */
  function Field(v: Option<string>): string {
    match v
    case None => "\\N"
    case Some(s) => Replace(Replace(s, '\\', "\\\\"), '|', "\\|")
  }

  function BigintText(v: Option<int>): Option<string> {
    match v
    case None => None
    case Some(n) => Some(Decimal.IntText(n))
  }

  /** The thirteen columns that pass through `audit_chain_field`, in order. */
  function FieldTexts(c: Columns): seq<Option<string>> {
    [c.traceId, c.messageId, c.stage, c.appId, c.capability, BigintText(c.capabilitySetVer),
     c.endpoint, c.routeStrategy, c.deliveryChannel, BigintText(c.recipientUserId),
     BigintText(c.recipientChatId), c.errorCode, c.details]
  }

  function JoinFields(fs: seq<Option<string>>): string {
    if fs == [] then "" else "|" + Field(fs[0]) + JoinFields(fs[1..])
  }

  function PayloadText(c: Columns): string {
    "v1" + ("|" + Decimal.EpochText(c.at) + JoinFields(FieldTexts(c)))
  }

  /** `audit_chain_payload` */
  function Payload(c: Columns): Utf8.Bytes {
    Utf8.Encode(PayloadText(c))
  }

  // ---- decoding ----

  /** Length of the first field of `s`: up to a `|` that no backslash escapes. */
  function FieldLen(s: string): (n: nat)
    ensures n <= |s|
  {
    if s == "" || s[0] == '|' then 0
    else if s[0] == '\\' && |s| >= 2 then 2 + FieldLen(s[2..])
    else 1 + FieldLen(s[1..])
  }

  function Unescape(s: string): string {
    if s == "" then ""
    else if s[0] == '\\' && |s| >= 2 then [s[1]] + Unescape(s[2..])
    else [s[0]] + Unescape(s[1..])
  }

  function Unfield(s: string): Option<string> {
    if s == "\\N" then None else Some(Unescape(s))
  }

  function SplitFields(s: string): seq<Option<string>> {
    if s == "" then []
    else
      var n := FieldLen(s[1..]);
      [Unfield(s[1..1 + n])] + SplitFields(s[1 + n..])
  }

  function TextBigint(v: Option<string>): Option<int> {
    match v
    case None => None
    case Some(s) => Decimal.ParseInt(s)
  }

  function Rebuild(fs: seq<Option<string>>): Option<Columns> {
    if |fs| != 14 || fs[0].None? then None
    else match Decimal.ParseEpoch(fs[0].value)
      case None => None
      case Some(at) =>
        Some(Columns(at, fs[1], fs[2], fs[3], fs[4], fs[5], TextBigint(fs[6]), fs[7], fs[8], fs[9],
                     TextBigint(fs[10]), TextBigint(fs[11]), fs[12], fs[13]))
  }

  function DecodePayload(b: Utf8.Bytes): Option<Columns> {
    match Utf8.Decode(b)
    case None => None
    case Some(s) => if |s| < 2 || s[..2] != "v1" then None else Rebuild(SplitFields(s[2..]))
  }

  // ---- one-pass escaping ----

  function Escape(s: string): string {
    if s == "" then ""
    else (if s[0] == '\\' || s[0] == '|' then ['\\', s[0]] else [s[0]]) + Escape(s[1..])
  }

  lemma {:induction false} ReplaceConcat(s: string, t: string, c: char, with: string)
    ensures Replace(s + t, c, with) == Replace(s, c, with) + Replace(t, c, with)
  {
    if s == "" {
      assert s + t == t;
    } else {
      ReplaceConcat(s[1..], t, c, with);
      assert (s + t)[1..] == s[1..] + t;
      Regroup(if s[0] == c then with else [s[0]], Replace(s[1..], c, with), Replace(t, c, with));
    }
  }

  /** Escaping backslashes first and bars second never re-escapes anything: the
      two replaces are one left-to-right pass. */
  lemma {:induction false} TwoReplacesAreOnePass(s: string)
    ensures Field(Some(s)) == Escape(s)
  {
    if s != "" {
      TwoReplacesAreOnePass(s[1..]);
      var head := if s[0] == '\\' then "\\\\" else [s[0]];
      ReplaceConcat(head, Replace(s[1..], '\\', "\\\\"), '|', "\\|");
      if s[0] == '\\' {
        assert Replace("\\", '|', "\\|") == "\\";
        assert head[1..] == "\\";
      } else {
        assert head[1..] == "";
      }
    }
  }

  lemma {:induction false} UnescapeInverts(s: string)
    ensures Unescape(Escape(s)) == s
    ensures s != "" ==> Escape(s) != ""
  {
    if s != "" {
      UnescapeInverts(s[1..]);
      var special := s[0] == '\\' || s[0] == '|';
      assert Escape(s)[if special then 2 else 1..] == Escape(s[1..]);
      assert [s[0]] + s[1..] == s;
    }
  }

  /** The NULL marker is the text of no value, not of `\N` and not of "". */
  lemma NullIsNoString(s: string)
    ensures Field(Some(s)) != Field(None)
  {
    TwoReplacesAreOnePass(s);
    if s != "" {
      assert Escape(s)[0] == '\\' ==> Escape(s)[1] == s[0];
    }
  }

  lemma UnfieldInverts(v: Option<string>)
    ensures Unfield(Field(v)) == v
  {
    if v.Some? {
      NullIsNoString(v.value);
      TwoReplacesAreOnePass(v.value);
      UnescapeInverts(v.value);
    }
  }

  lemma FieldLenStep(first: string, c: char, rest: string)
    requires first == if c == '\\' || c == '|' then ['\\', c] else [c]
    ensures FieldLen(first + rest) == |first| + FieldLen(rest)
  {
    assert (first + rest)[|first|..] == rest;
  }

  lemma {:induction false} EscapedFieldEnds(s: string, t: string)
    requires t == "" || t[0] == '|'
    ensures FieldLen(Escape(s) + t) == |Escape(s)|
  {
    if s == "" {
      assert Escape(s) + t == t;
    } else {
      EscapedFieldEnds(s[1..], t);
      var first := if s[0] == '\\' || s[0] == '|' then ['\\', s[0]] else [s[0]];
      Regroup(first, Escape(s[1..]), t);
      FieldLenStep(first, s[0], Escape(s[1..]) + t);
    }
  }

  /** A separator is never mistaken for data, nor data for a separator. */
  lemma FieldEnds(v: Option<string>, t: string)
    requires t == "" || t[0] == '|'
    ensures FieldLen(Field(v) + t) == |Field(v)|
  {
    match v
    case None =>
      assert ("\\N" + t)[2..] == t;
    case Some(s) =>
      TwoReplacesAreOnePass(s);
      EscapedFieldEnds(s, t);
  }

  lemma {:induction false} SplitInverts(fs: seq<Option<string>>)
    ensures SplitFields(JoinFields(fs)) == fs
  {
    if fs != [] {
      SplitInverts(fs[1..]);
      SplitFirst(fs[0], JoinFields(fs[1..]));
    }
  }

  lemma SplitFirst(v: Option<string>, rest: string)
    requires rest == "" || rest[0] == '|'
    ensures SplitFields("|" + Field(v) + rest) == [v] + SplitFields(rest)
  {
    var f := Field(v);
    var s := "|" + f + rest;
    FieldEnds(v, rest);
    UnfieldInverts(v);
    assert s[1..] == f + rest;
    assert s[1..1 + |f|] == f && s[1 + |f|..] == rest;
  }

  lemma {:induction false} EscapePlain(s: string)
    requires forall i :: 0 <= i < |s| ==> s[i] != '\\' && s[i] != '|'
    ensures Escape(s) == s
  {
    if s != "" {
      EscapePlain(s[1..]);
      assert [s[0]] + s[1..] == s;
    }
  }

  lemma EpochIsPlain(us: int)
    ensures Field(Some(Decimal.EpochText(us))) == Decimal.EpochText(us)
  {
    var s := Decimal.EpochText(us);
    var m := if us < 0 then -us else us;
    Decimal.NatTextDigits(m / 1_000_000);
    PadDigits(m % 1_000_000, 6);
    EscapePlain(s);
    TwoReplacesAreOnePass(s);
  }

  lemma {:induction false} PadDigits(n: nat, w: nat)
    ensures Decimal.Digits(Decimal.Pad(n, w))
  {
    if w > 0 { PadDigits(n / 10, w - 1); }
  }

  lemma BigintInverts(v: Option<int>)
    ensures TextBigint(BigintText(v)) == v
  {
    if v.Some? { Decimal.ParseIntInverts(v.value); }
  }

  function AllTexts(c: Columns): seq<Option<string>> {
    [Some(Decimal.EpochText(c.at))] + FieldTexts(c)
  }

  lemma PayloadSplits(c: Columns)
    ensures var s := PayloadText(c);
      |s| >= 2 && s[..2] == "v1" && SplitFields(s[2..]) == AllTexts(c)
  {
    var fs := AllTexts(c);
    EpochIsPlain(c.at);
    assert fs[1..] == FieldTexts(c);
    assert PayloadText(c)[2..] == JoinFields(fs);
    SplitInverts(fs);
  }

  lemma RebuildInverts(c: Columns)
    ensures Rebuild(AllTexts(c)) == Some(c)
  {
    Decimal.ParseEpochInverts(c.at);
    BigintInverts(c.capabilitySetVer);
    BigintInverts(c.recipientUserId);
    BigintInverts(c.recipientChatId);
  }

  /** The decoder recovers every column of every row from its payload. */
  lemma DecodeInvertsPayload(c: Columns)
    ensures DecodePayload(Payload(c)) == Some(c)
  {
    Utf8.DecodeInverts(PayloadText(c));
    PayloadSplits(c);
    RebuildInverts(c);
  }

  /** Hence two rows with the same payload agree on every column. */
  lemma PayloadInjective(c: Columns, d: Columns)
    requires Payload(c) == Payload(d)
    ensures c == d
  {
    DecodeInvertsPayload(c);
    DecodeInvertsPayload(d);
  }

  lemma PayloadNonEmpty(c: Columns)
    ensures |Payload(c)| > 0
  {
    Utf8.CharRoundTrip(PayloadText(c)[0]);
  }
}
