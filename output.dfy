/**
 * What the launcher writes to its own standard output and error on behalf
 * of the backend: relayed chunks with a source tag, and the exit notice.
 */
module Output {
  import opened Wrappers

  const Tag := "[backend] "

  /** One relayed chunk, as written to the host stream. */
  function Tagged(chunk: string): string
  {
    Tag + chunk
  }

  /** Recovers the chunk from a host write, if the write starts with the tag. */
  function Untagged(write: string): Option<string>
  {
    if |Tag| <= |write| && write[..|Tag|] == Tag then Some(write[|Tag|..]) else None
  }

  lemma UntagTagged(chunk: string)
    ensures Untagged(Tagged(chunk)) == Some(chunk)
  {
  }

  /** The host writes produced by relaying `chunks` in order, one write each. */
  function Relayed(chunks: seq<string>): seq<string>
    decreases |chunks|
  {
    if chunks == [] then [] else [Tagged(chunks[0])] + Relayed(chunks[1..])
  }

  /** The chunks behind a run of host writes, if every write starts with the tag. */
  function Unrelayed(writes: seq<string>): Option<seq<string>>
    decreases |writes|
  {
    if writes == [] then Some([])
    else match (Untagged(writes[0]), Unrelayed(writes[1..]))
      case (Some(c), Some(rest)) => Some([c] + rest)
      case _ => None
  }

  /** Relaying loses nothing and reorders nothing: the chunks can be read back. */
  lemma {:induction false} UnrelayRelayed(chunks: seq<string>)
    ensures Unrelayed(Relayed(chunks)) == Some(chunks)
  {
    if chunks != [] {
      UntagTagged(chunks[0]);
      UnrelayRelayed(chunks[1..]);
      var writes := Relayed(chunks);
      assert writes[0] == Tagged(chunks[0]) && writes[1..] == Relayed(chunks[1..]);
      assert chunks == [chunks[0]] + chunks[1..];
    }
  }

  /** Relaying chunk by chunk appends: later chunks land after earlier ones. */
  lemma {:induction false} RelayedAppend(a: seq<string>, b: seq<string>)
    ensures Relayed(a + b) == Relayed(a) + Relayed(b)
    decreases |a|
  {
    if a != [] {
      assert (a + b)[1..] == a[1..] + b;
      RelayedAppend(a[1..], b);
    } else {
      assert a + b == b;
    }
  }

  /* ----- Decimal text of JavaScript integers and null, as `${code}` renders them ----- */

  function DigitChar(d: nat): char
    requires d < 10
  {
    ('0' as int + d) as char
  }

  function DigitValue(c: char): nat
  {
    if '0' <= c <= '9' then c as int - '0' as int else 0
  }

  function ShowNat(n: nat): string
    decreases n
  {
    if n < 10 then [DigitChar(n)] else ShowNat(n / 10) + [DigitChar(n % 10)]
  }

  function ShowInt(i: int): string
  {
    if i < 0 then "-" + ShowNat(-i) else ShowNat(i)
  }

  /** An exit code or `null`, as a template literal renders it. */
  function ShowCode(code: Option<int>): string
  {
    match code
    case None => "null"
    case Some(c) => ShowInt(c)
  }

  /** A signal name or `null`, as a template literal renders it. */
  function ShowSignal(signal: Option<string>): string
  {
    match signal
    case None => "null"
    case Some(s) => s
  }

  function ParseNat(s: string): nat
    decreases |s|
  {
    if s == [] then 0 else ParseNat(s[..|s| - 1]) * 10 + DigitValue(s[|s| - 1])
  }

  function ParseInt(s: string): int
  {
    if |s| > 0 && s[0] == '-' then -(ParseNat(s[1..]) as int) else ParseNat(s)
  }

  function ParseCode(s: string): Option<int>
  {
    if s == "null" then None else Some(ParseInt(s))
  }

  predicate AllDigits(s: string)
  {
    forall i :: 0 <= i < |s| ==> '0' <= s[i] <= '9'
  }

  lemma {:induction false} ParseShowNat(n: nat)
    ensures |ShowNat(n)| > 0 && AllDigits(ShowNat(n))
    ensures ParseNat(ShowNat(n)) == n
    decreases n
  {
    if n >= 10 {
      ParseShowNat(n / 10);
      var s := ShowNat(n);
      assert s[..|s| - 1] == ShowNat(n / 10);
    }
  }

  /** The rendered exit code determines the code: reading it back gives it again. */
  lemma CodeRoundTrip(code: Option<int>)
    ensures ParseCode(ShowCode(code)) == code
    ensures forall i :: 0 <= i < |ShowCode(code)| ==> ShowCode(code)[i] != ','
  {
    match code
    case None =>
    case Some(c) =>
      ParseShowNat(if c < 0 then -c else c);
      if c < 0 {
        assert ("-" + ShowNat(-c))[1..] == ShowNat(-c);
      } else {
        assert ShowNat(c)[0] != '-';
      }
      assert ShowCode(code)[0] != 'n';
  }

  const ExitHead := "exited (code="

  /** The notice written to standard output when the backend exits. */
  function ExitLine(code: Option<int>, signal: Option<string>): string
  {
    Tagged(ExitHead + ShowCode(code) + ", signal=" + ShowSignal(signal) + ")\n")
  }

  /** The text before the first ',' (all of it when there is none). */
  function UpToComma(s: string): string
    decreases |s|
  {
    if s == [] || s[0] == ',' then [] else [s[0]] + UpToComma(s[1..])
  }

  lemma {:induction false} UpToCommaPrefix(a: string, b: string)
    requires forall i :: 0 <= i < |a| ==> a[i] != ','
    ensures UpToComma(a + "," + b) == a
    decreases |a|
  {
    if a != [] {
      assert (a + "," + b)[1..] == a[1..] + "," + b;
      UpToCommaPrefix(a[1..], b);
    }
  }

  /** The exit code a reader finds in an exit notice (between "code=" and ","). */
  function ExitCodeOf(notice: string): Option<Option<int>>
  {
    var head := Tag + ExitHead;
    if |head| <= |notice| && notice[..|head|] == head then Some(ParseCode(UpToComma(notice[|head|..])))
    else None
  }

  /** A write made of the notice head, a comma-free field and anything else yields that field. */
  lemma ExitFieldRead(field: string, tail: string)
    requires forall i :: 0 <= i < |field| ==> field[i] != ','
    ensures ExitCodeOf(Tag + ExitHead + field + "," + tail) == Some(ParseCode(field))
  {
    var head := Tag + ExitHead;
    var notice := head + field + "," + tail;
    assert notice[..|head|] == head;
    assert notice[|head|..] == field + "," + tail;
    UpToCommaPrefix(field, tail);
  }

  /** The exit notice is tagged like relayed output and records the exit code exactly. */
  lemma ExitLineRecordsCode(code: Option<int>, signal: Option<string>)
    ensures Untagged(ExitLine(code, signal)).Some?
    ensures ExitCodeOf(ExitLine(code, signal)) == Some(code)
  {
    var field := ShowCode(code);
    var tail := " signal=" + ShowSignal(signal) + ")\n";
    UntagTagged(ExitHead + field + ", signal=" + ShowSignal(signal) + ")\n");
    assert ExitLine(code, signal) == Tag + ExitHead + field + "," + tail;
    CodeRoundTrip(code);
    ExitFieldRead(field, tail);
  }
}
