/** The yt-dlp progress stream: yt-dlp rewrites one terminal line with a
    bare integer percentage, separating updates by carriage returns. The
    provider scans standard output with a custom `bufio.SplitFunc` that cuts
    at the first carriage return and converts every token with
    `strconv.Atoi`, discarding the conversion error. */
module Progress {
  import opened Results
  import Text

  newtype byte = x: int | 0 <= x < 256

  const CR: byte := 13
  const PLUS: byte := 43
  const MINUS: byte := 45
  const ZERO: byte := 48
  const NINE: byte := 57

  /** What a split function returns: how many bytes to consume and the
      token, if any (Go's nil token is None). The error result is always nil. */
  datatype SplitStep = SplitStep(advance: nat, token: Option<seq<byte>>)

  /** A single-byte pattern occurs exactly where that byte is. */
  lemma OccursSingle(s: seq<byte>, j: nat)
    ensures Text.OccursAt(s, [CR], j) <==> j < |s| && s[j] == CR
  {
    if j < |s| {
      assert s[j..j + 1] == [s[j]];
    }
  }

  /** Position of the first carriage return of `data` at or after `k`, as
      the source's `for i, b := range data` search. */
  function FirstCRFrom(data: seq<byte>, k: nat): (r: Option<nat>)
    requires k <= |data|
    ensures r.Some? ==> k <= r.value < |data| && data[r.value] == CR
    ensures r.Some? ==> forall j :: k <= j < r.value ==> data[j] != CR
    ensures r.None? ==> forall j :: k <= j < |data| ==> data[j] != CR
    decreases |data| - k
  {
    if k == |data| then None
    else if data[k] == CR then Some(k)
    else FirstCRFrom(data, k + 1)
  }

  function FirstCR(data: seq<byte>): (r: Option<nat>)
    ensures r.Some? ==> r.value < |data| && data[r.value] == CR
    ensures r.Some? ==> forall j :: 0 <= j < r.value ==> data[j] != CR
    ensures r.None? ==> forall j :: 0 <= j < |data| ==> data[j] != CR
  {
    FirstCRFrom(data, 0)
  }

  /** The split closure of the provider's `Download`. */
  function ScanCR(data: seq<byte>, atEOF: bool): (r: SplitStep)
    ensures r.advance <= |data|
    ensures r.token.Some? <==> r.advance > 0
  {
    match FirstCR(data)
    case Some(i) => SplitStep(i + 1, Some(data[..i]))
    case None =>
      if atEOF && |data| > 0 then SplitStep(|data|, Some(data)) else SplitStep(0, None)
  }

  /** The three outcomes of the split closure: cut at the first carriage
      return, hand over the remainder at end of input, or ask for more. */
  lemma ScanCRSpec(data: seq<byte>, atEOF: bool)
    ensures CR in data ==>
      var r := ScanCR(data, atEOF);
      && r.token.Some?
      && CR !in r.token.value
      && r.advance == |r.token.value| + 1
      && data[..r.advance] == r.token.value + [CR]
    ensures CR !in data && atEOF && |data| > 0 ==> ScanCR(data, atEOF) == SplitStep(|data|, Some(data))
    ensures CR !in data && !(atEOF && |data| > 0) ==> ScanCR(data, atEOF) == SplitStep(0, None)
  {
    match FirstCR(data)
    case Some(i) =>
      assert data[..i + 1] == data[..i] + [CR];
    case None =>
  }

  /** The tokens of a complete stream: the text before each carriage return,
      then whatever follows the last one when it is not empty. This is what
      the scanner is shown to produce, whatever the read boundaries. */
  function ScanAll(data: seq<byte>): seq<seq<byte>>
    decreases |data|
  {
    match FirstCR(data)
    case Some(i) => [data[..i]] + ScanAll(data[i + 1..])
    case None => if data == [] then [] else [data]
  }

  /** The carriage-return separated fields of a stream, without the empty
      field that follows a terminating carriage return. */
  function Fields(data: seq<byte>): seq<seq<byte>> {
    var parts := Text.Split(data, [CR]);
    if parts[|parts| - 1] == [] then parts[..|parts| - 1] else parts
  }

  /** The terminating carriage return of a stream, if it has one. */
  function Trailer(data: seq<byte>): seq<byte> {
    if |data| > 0 && data[|data| - 1] == CR then [CR] else []
  }

  /** A carriage return with none before it is the first one. */
  lemma FirstCRAt(data: seq<byte>, i: nat)
    requires i < |data| && data[i] == CR
    requires forall j :: 0 <= j < i ==> data[j] != CR
    ensures FirstCR(data) == Some(i)
  {
  }

  /** Scanning a carriage-return free token, a carriage return and the rest. */
  lemma ScanCons(t: seq<byte>, rest: seq<byte>)
    requires forall j :: 0 <= j < |t| ==> t[j] != CR
    ensures ScanAll(t + [CR] + rest) == [t] + ScanAll(rest)
  {
    var data := t + [CR] + rest;
    FirstCRAt(data, |t|);
    assert data[..|t|] == t;
    assert data[|t| + 1..] == rest;
  }

  /** No token contains a carriage return. */
  lemma {:induction false} ScanTokensFree(data: seq<byte>)
    ensures forall k :: 0 <= k < |ScanAll(data)| ==> CR !in ScanAll(data)[k]
    decreases |data|
  {
    match FirstCR(data)
    case None =>
    case Some(i) =>
      ScanTokensFree(data[i + 1..]);
      assert CR !in data[..i] by {
        forall j | 0 <= j < i ensures data[..i][j] != CR { }
      }
  }

  /** A non-empty stream yields at least one token. */
  lemma ScanNonEmpty(data: seq<byte>)
    requires data != []
    ensures ScanAll(data) != []
  {
  }

  lemma TrailerSuffix(a: seq<byte>, b: seq<byte>)
    requires b != []
    ensures Trailer(a + b) == Trailer(b)
  {
    assert (a + b)[|a + b| - 1] == b[|b| - 1];
  }

  lemma JoinStep(t: seq<byte>, rest: seq<byte>)
    requires forall j :: 0 <= j < |t| ==> t[j] != CR
    requires rest != []
    requires Text.Join(ScanAll(rest), [CR]) + Trailer(rest) == rest
    ensures Text.Join(ScanAll(t + [CR] + rest), [CR]) + Trailer(t + [CR] + rest) == t + [CR] + rest
  {
    ScanCons(t, rest);
    ScanNonEmpty(rest);
    Text.JoinCons(t, ScanAll(rest), [CR]);
    TrailerSuffix(t + [CR], rest);
  }

  /** Joining the tokens with carriage returns rebuilds the stream, up to a
      terminating carriage return. */
  lemma {:induction false} ScanReassembles(data: seq<byte>)
    ensures Text.Join(ScanAll(data), [CR]) + Trailer(data) == data
    decreases |data|
  {
    match FirstCR(data)
    case None =>
    case Some(i) =>
      var t := data[..i];
      var rest := data[i + 1..];
      assert data == t + [CR] + rest;
      if rest == [] {
        ScanCons(t, rest);
      } else {
        ScanReassembles(rest);
        JoinStep(t, rest);
      }
  }

  /** The scanner's tokens are exactly the carriage-return separated fields. */
  lemma {:induction false} ScanAllIsFields(data: seq<byte>)
    ensures ScanAll(data) == Fields(data)
    decreases |data|
  {
    match FirstCR(data)
    case None =>
      forall j: nat | j < |data| ensures !Text.OccursAt(data, [CR], j) {
        OccursSingle(data, j);
      }
      Text.SplitHead(data, [CR]);
    case Some(i) =>
      var rest := data[i + 1..];
      ScanAllIsFields(rest);
      IndexIsFirstCR(data, i);
      Text.SplitHead(data, [CR]);
      var s := Text.Split(rest, [CR]);
      assert Text.Split(data, [CR]) == [data[..i]] + s;
      if s[|s| - 1] == [] {
        assert ([data[..i]] + s)[..|s|] == [data[..i]] + s[..|s| - 1];
      }
  }

  /** The generic substring search finds the same carriage return. */
  lemma IndexIsFirstCR(data: seq<byte>, i: nat)
    requires FirstCR(data) == Some(i)
    ensures Text.Index(data, [CR]) == Some(i)
  {
    OccursSingle(data, i);
    forall j: nat | j < i ensures !Text.OccursAt(data, [CR], j) {
      OccursSingle(data, j);
    }
  }

  /** The result of draining a buffer: the tokens cut from it and the
      unconsumed remainder the scanner keeps for the next read. */
  datatype Drained = Drained(tokens: seq<seq<byte>>, rest: seq<byte>)

  /** Call the split function on the buffer until it asks for more data. */
  function Drain(buf: seq<byte>, atEOF: bool): (d: Drained)
    ensures |d.rest| <= |buf|
    decreases |buf|
  {
    var st := ScanCR(buf, atEOF);
    if st.advance == 0 then Drained([], buf)
    else
      var d := Drain(buf[st.advance..], atEOF);
      Drained([st.token.value] + d.tokens, d.rest)
  }

  /** The tokens a scanner produces when the stream arrives as `chunks`
      (arbitrary read boundaries) after `buf` is already buffered. */
  function Feed(buf: seq<byte>, chunks: seq<seq<byte>>): seq<seq<byte>>
    decreases |chunks|
  {
    if |chunks| == 0 then Drain(buf, true).tokens
    else
      var d := Drain(buf + chunks[0], false);
      d.tokens + Feed(d.rest, chunks[1..])
  }

  function Concat(chunks: seq<seq<byte>>): seq<byte> {
    if |chunks| == 0 then [] else chunks[0] + Concat(chunks[1..])
  }

  /** Draining a buffer that starts with a carriage-return free token and a
      carriage return. */
  lemma DrainCons(t: seq<byte>, rest: seq<byte>, atEOF: bool)
    requires forall j :: 0 <= j < |t| ==> t[j] != CR
    ensures Drain(t + [CR] + rest, atEOF)
         == Drained([t] + Drain(rest, atEOF).tokens, Drain(rest, atEOF).rest)
  {
    var data := t + [CR] + rest;
    FirstCRAt(data, |t|);
    assert data[..|t|] == t;
    assert data[|t| + 1..] == rest;
  }

  /** A buffer without a carriage return is kept whole until end of input. */
  lemma DrainNone(buf: seq<byte>)
    requires FirstCR(buf).None?
    ensures Drain(buf, false) == Drained([], buf)
  {
  }

  /** Draining at end of input is scanning the whole buffer. */
  lemma {:induction false} DrainAtEOF(buf: seq<byte>)
    ensures Drain(buf, true).tokens == ScanAll(buf)
    decreases |buf|
  {
    match FirstCR(buf)
    case None =>
      if buf != [] {
        assert buf[|buf|..] == [];
      }
    case Some(i) =>
      var t := buf[..i];
      var rest := buf[i + 1..];
      assert buf == t + [CR] + rest;
      DrainCons(t, rest, true);
      ScanCons(t, rest);
      DrainAtEOF(rest);
  }

  /** Tokens cut before end of input are not affected by what arrives later. */
  lemma {:induction false} DrainThenScan(buf: seq<byte>, more: seq<byte>)
    ensures ScanAll(buf + more) == Drain(buf, false).tokens + ScanAll(Drain(buf, false).rest + more)
    decreases |buf|
  {
    match FirstCR(buf)
    case None =>
      DrainNone(buf);
    case Some(i) =>
      var t := buf[..i];
      var rest := buf[i + 1..];
      assert buf == t + [CR] + rest;
      DrainThenScan(rest, more);
      DrainScanCons(t, rest, more);
  }

  lemma DrainScanCons(t: seq<byte>, rest: seq<byte>, more: seq<byte>)
    requires forall j :: 0 <= j < |t| ==> t[j] != CR
    requires ScanAll(rest + more) == Drain(rest, false).tokens + ScanAll(Drain(rest, false).rest + more)
    ensures ScanAll(t + [CR] + rest + more)
         == Drain(t + [CR] + rest, false).tokens + ScanAll(Drain(t + [CR] + rest, false).rest + more)
  {
    var d := Drain(rest, false);
    var whole := t + [CR] + rest;
    DrainCons(t, rest, false);
    assert whole + more == t + [CR] + (rest + more);
    ScanCons(t, rest + more);
    Text.Assoc([t], d.tokens, ScanAll(d.rest + more));
  }

  /** Read boundaries do not matter: scanning a stream delivered in any
      chunks yields the same tokens as scanning it in one piece. */
  lemma {:induction false} ChunkingIrrelevant(buf: seq<byte>, chunks: seq<seq<byte>>)
    ensures Feed(buf, chunks) == ScanAll(buf + Concat(chunks))
    decreases |chunks|
  {
    if |chunks| == 0 {
      assert buf + Concat(chunks) == buf;
      DrainAtEOF(buf);
    } else {
      var d := Drain(buf + chunks[0], false);
      ChunkingIrrelevant(d.rest, chunks[1..]);
      DrainThenScan(buf + chunks[0], Concat(chunks[1..]));
      assert buf + Concat(chunks) == (buf + chunks[0]) + Concat(chunks[1..]);
    }
  }

  // ---- strconv.Atoi on a token ----

  predicate IsDigit(b: byte) {
    ZERO <= b <= NINE
  }

  /** The token without its optional leading sign. */
  function Unsigned(s: seq<byte>): seq<byte> {
    if |s| > 0 && (s[0] == PLUS || s[0] == MINUS) then s[1..] else s
  }

  /** The syntax `strconv.Atoi` accepts: an optional sign and at least one
      decimal digit, nothing else. */
  predicate IsDecimal(s: seq<byte>) {
    |Unsigned(s)| > 0 && AllDigits(Unsigned(s))
  }

  function DigitsValue(s: seq<byte>): nat
    requires AllDigits(s)
  {
    if |s| == 0 then 0
    else
      assert IsDigit(s[|s| - 1]);
      DigitsValue(s[..|s| - 1]) * 10 + (s[|s| - 1] as int - ZERO as int)
  }

  const MaxInt: int := 0x7FFF_FFFF_FFFF_FFFF
  const MinInt: int := -0x8000_0000_0000_0000
  const MaxUint64: int := 0xFFFF_FFFF_FFFF_FFFF

  predicate AllDigits(s: seq<byte>) {
    forall i :: 0 <= i < |s| ==> IsDigit(s[i])
  }

  /** The token starts with a minus sign. */
  predicate Negative(s: seq<byte>) {
    |s| > 0 && s[0] == MINUS
  }

  /** The value of a decimal token, with its sign. */
  function Signed(s: seq<byte>): int
    requires IsDecimal(s)
  {
    if Negative(s) then -(DigitsValue(Unsigned(s)) as int) else DigitsValue(Unsigned(s))
  }

  /** The int64 value nearest to `v`. */
  function Clamp(v: int): int {
    if v > MaxInt then MaxInt else if v < MinInt then MinInt else v
  }

  /** The longest prefix of `s` made of decimal digits. */
  function DigitRun(s: seq<byte>): (p: seq<byte>)
    ensures p <= s && AllDigits(p)
    ensures |p| < |s| ==> !IsDigit(s[|p|])
  {
    if s == [] || !IsDigit(s[0]) then [] else [s[0]] + DigitRun(s[1..])
  }

  /** What `strconv.ParseUint` answers: a syntax error (with value 0), a
      range error (with the maximum value) or a value. */
  datatype Uint = SyntaxError | RangeError | Value(n: nat)

  /** The digit loop of `strconv.ParseUint` in base 10, `acc` being the
      value of the digits read so far: a non-digit is a syntax error, and a
      digit that takes the value past 2^64 - 1 is a range error at once,
      before the rest of the text is looked at. */
  function ParseDigits(s: seq<byte>, acc: nat): Uint
    requires acc <= MaxUint64
    decreases |s|
  {
    if s == [] then Value(acc)
    else if !IsDigit(s[0]) then SyntaxError
    else
      var n := acc * 10 + (s[0] as int - ZERO as int);
      if n > MaxUint64 then RangeError else ParseDigits(s[1..], n)
  }

  /** `strconv.ParseInt(s, 10, 0)` on a 64-bit platform with its error
      dropped: one optional sign, the unsigned parse, then the int64 bound
      on the sign's side for a range error or a value too large. */
  function ParseInt(s: seq<byte>): int {
    var u := Unsigned(s);
    match (if u == [] then SyntaxError else ParseDigits(u, 0))
    case SyntaxError => 0
    case RangeError => if Negative(s) then MinInt else MaxInt
    case Value(n) =>
      if !Negative(s) then (if n >= 0x8000_0000_0000_0000 then MaxInt else n)
      else (if n > 0x8000_0000_0000_0000 then MinInt else -(n as int))
  }

  /** The digit loop of the fast path, which has no range check. */
  function FastDigits(s: seq<byte>, acc: nat): Option<nat>
    decreases |s|
  {
    if s == [] then Some(acc)
    else if !IsDigit(s[0]) then None
    else FastDigits(s[1..], acc * 10 + (s[0] as int - ZERO as int))
  }

  /** The fast path `strconv.Atoi` takes for tokens of 1 to 18 bytes. */
  function FastAtoi(s: seq<byte>): int {
    var u := Unsigned(s);
    if u == [] then 0
    else
      match FastDigits(u, 0)
      case None => 0
      case Some(n) => if Negative(s) then -(n as int) else n
  }

  /** `strconv.Atoi` on a 64-bit platform with its error dropped. A decimal
      token gives its value, or the int64 bound on its side when out of
      range. Any other token gives 0, unless its leading digits already
      exceed 2^64 - 1: the parse stops there with a range error and gives
      the bound on the sign's side. */
  function Atoi(s: seq<byte>): (n: int)
    ensures MinInt <= n <= MaxInt
    ensures IsDecimal(s) ==>
      n == Clamp(Signed(s))
    ensures !IsDecimal(s) ==>
      n == (if DigitsValue(DigitRun(Unsigned(s))) > MaxUint64 then (if Negative(s) then MinInt else MaxInt) else 0)
  {
    ParseIntSpec(s);
    if 0 < |s| < 19 then
      FastPathAgrees(s);
      FastAtoi(s)
    else
      ParseInt(s)
  }

  /** The digits of `q`, then one more. */
  lemma DigitsValueSnoc(q: seq<byte>, d: byte)
    requires AllDigits(q) && IsDigit(d)
    ensures AllDigits(q + [d]) && DigitsValue(q + [d]) == DigitsValue(q) * 10 + (d as int - ZERO as int)
  {
    assert (q + [d])[..|q|] == q;
  }

  /** More digits never make a smaller value. */
  lemma {:induction false} DigitsMonotone(a: seq<byte>, b: seq<byte>)
    requires AllDigits(a) && AllDigits(b)
    ensures AllDigits(a + b) && DigitsValue(a) <= DigitsValue(a + b)
    decreases |b|
  {
    if b != [] {
      var b' := b[..|b| - 1];
      DigitsMonotone(a, b');
      assert a + b == (a + b') + [b[|b| - 1]];
      DigitsValueSnoc(a + b', b[|b| - 1]);
    } else {
      assert a + b == a;
    }
  }

  lemma {:induction false} DigitRunAppend(q: seq<byte>, t: seq<byte>)
    requires AllDigits(q)
    ensures DigitRun(q + t) == q + DigitRun(t)
    decreases |q|
  {
    if q != [] {
      assert (q + t)[1..] == q[1..] + t;
      DigitRunAppend(q[1..], t);
    } else {
      assert q + t == t;
    }
  }

  /** What the digit loop answers on text `t`, read off its leading
      digits. */
  function Classify(t: seq<byte>): Uint {
    var p := DigitRun(t);
    if DigitsValue(p) > MaxUint64 then RangeError
    else if p == t then Value(DigitsValue(p))
    else SyntaxError
  }

  /** The loop, started after the digits `q`, answers what `Classify` reads
      off the whole text. */
  lemma {:induction false} ParseDigitsClassify(q: seq<byte>, s: seq<byte>, acc: nat)
    requires AllDigits(q) && acc == DigitsValue(q) && acc <= MaxUint64
    ensures ParseDigits(s, acc) == Classify(q + s)
    decreases |s|
  {
    DigitRunAppend(q, s);
    if s == [] {
      assert q + s == q;
    } else if !IsDigit(s[0]) {
      assert DigitRun(s) == [];
      assert q + [] == q;
    } else {
      var q' := q + [s[0]];
      DigitsValueSnoc(q, s[0]);
      assert q' + s[1..] == q + s;
      if DigitsValue(q') > MaxUint64 {
        DigitRunAppend(q', s[1..]);
        DigitsMonotone(q', DigitRun(s[1..]));
      } else {
        ParseDigitsClassify(q', s[1..], DigitsValue(q'));
      }
    }
  }

  /** `ParseInt` satisfies the contract of `Atoi`. */
  lemma ParseIntSpec(s: seq<byte>)
    ensures MinInt <= ParseInt(s) <= MaxInt
    ensures IsDecimal(s) ==>
      ParseInt(s) == Clamp(Signed(s))
    ensures !IsDecimal(s) ==>
      ParseInt(s) == (if DigitsValue(DigitRun(Unsigned(s))) > MaxUint64 then (if Negative(s) then MinInt else MaxInt) else 0)
  {
    var u := Unsigned(s);
    if u != [] {
      ParseDigitsClassify([], u, 0);
      assert [] + u == u;
      if AllDigits(u) {
        DigitRunAppend(u, []);
        assert u + [] == u;
      }
    }
  }

  function Pow10(n: nat): nat {
    if n == 0 then 1 else 10 * Pow10(n - 1)
  }

  lemma {:induction false} Pow10Add(a: nat, b: nat)
    ensures Pow10(a + b) == Pow10(a) * Pow10(b)
    decreases a
  {
    if a > 0 {
      Pow10Add(a - 1, b);
      assert a + b - 1 == (a - 1) + b;
    }
  }

  lemma {:induction false} Pow10Monotone(a: nat, b: nat)
    requires a <= b
    ensures Pow10(a) <= Pow10(b)
    decreases b
  {
    if a < b {
      Pow10Monotone(a, b - 1);
    }
  }

  /** Eighteen digits stay below 10^18, far inside the int64 range. */
  lemma Pow10Eighteen()
    ensures Pow10(18) == 1_000_000_000_000_000_000
  {
    assert Pow10(3) == 1000;
    Pow10Add(3, 3);
    Pow10Add(6, 6);
    Pow10Add(12, 6);
  }

  lemma {:induction false} DigitsBound(s: seq<byte>)
    requires AllDigits(s)
    ensures DigitsValue(s) < Pow10(|s|)
    decreases |s|
  {
    if s != [] {
      DigitsBound(s[..|s| - 1]);
    }
  }

  /** The fast path's loop, started after the digits `q`: the value of all
      the digits, or nothing at the first non-digit. */
  lemma {:induction false} FastDigitsValue(q: seq<byte>, s: seq<byte>, acc: nat)
    requires AllDigits(q) && acc == DigitsValue(q)
    ensures AllDigits(s) ==> AllDigits(q + s) && FastDigits(s, acc) == Some(DigitsValue(q + s))
    ensures !AllDigits(s) ==> FastDigits(s, acc).None?
    decreases |s|
  {
    if s == [] {
      assert q + s == q;
    } else if IsDigit(s[0]) {
      var q' := q + [s[0]];
      DigitsValueSnoc(q, s[0]);
      assert q' + s[1..] == q + s;
      FastDigitsValue(q', s[1..], DigitsValue(q'));
      if !AllDigits(s) {
        var i :| 0 <= i < |s| && !IsDigit(s[i]);
        assert s[1..][i - 1] == s[i];
      }
    }
  }

  /** On the tokens it handles the fast path gives what `ParseInt` gives:
      eighteen digits can neither reach the range check nor exceed int64. */
  lemma FastPathAgrees(s: seq<byte>)
    requires 0 < |s| < 19
    ensures FastAtoi(s) == ParseInt(s)
  {
    var u := Unsigned(s);
    if u != [] {
      FastDigitsValue([], u, 0);
      ParseDigitsClassify([], u, 0);
      assert [] + u == u;
      var p := DigitRun(u);
      DigitsBound(p);
      Pow10Monotone(|p|, 18);
      Pow10Eighteen();
      if AllDigits(u) {
        DigitRunAppend(u, []);
        assert u + [] == u;
      }
    }
  }

  /** A value is at least its leading digit times the weight of its
      place. */
  lemma {:induction false} DigitsLower(s: seq<byte>)
    requires AllDigits(s) && |s| > 0
    ensures DigitsValue(s) >= (s[0] as int - ZERO as int) * Pow10(|s| - 1)
    decreases |s|
  {
    if |s| > 1 {
      var s' := s[..|s| - 1];
      DigitsLower(s');
      var lead := s[0] as int - ZERO as int;
      assert s'[0] == s[0];
      assert lead * Pow10(|s| - 1) == lead * Pow10(|s'| - 1) * 10;
    }
  }

  /** Twenty or more leading digits, the first of them 2 to 9, saturate
      the result whatever follows them: the parse stops with a range error
      before it reaches a non-digit, so "99999999999999999999x" gives the
      int64 maximum rather than 0. */
  lemma LongDigitRunSaturates(s: seq<byte>)
    requires |DigitRun(Unsigned(s))| >= 20 && Unsigned(s)[0] >= ZERO + 2
    ensures Atoi(s) == if Negative(s) then MinInt else MaxInt
  {
    var p := DigitRun(Unsigned(s));
    assert p[0] == Unsigned(s)[0];
    DigitsLower(p);
    Pow10Monotone(19, |p| - 1);
    Pow10Eighteen();
    assert Pow10(19) == 10 * Pow10(18);
    assert DigitsValue(p) > MaxUint64;
    if IsDecimal(s) {
      DigitRunAppend(Unsigned(s), []);
      assert Unsigned(s) + [] == Unsigned(s);
      assert DigitsValue(Unsigned(s)) > MaxUint64;
    }
  }

  /** A non-negative integer printed in decimal, as yt-dlp's `%(...)d`
      template prints a percentage. */
  function Decimal(n: nat): (s: seq<byte>)
    ensures |s| > 0 && forall i :: 0 <= i < |s| ==> IsDigit(s[i])
  {
    if n < 10 then [ZERO + n as byte]
    else Decimal(n / 10) + [ZERO + (n % 10) as byte]
  }

  lemma {:induction false} DigitsOfDecimal(n: nat)
    ensures DigitsValue(Decimal(n)) == n
  {
    if n >= 10 {
      DigitsOfDecimal(n / 10);
      var s := Decimal(n);
      assert s[..|s| - 1] == Decimal(n / 10);
    }
  }

  /** Atoi reads back every printed value in range. */
  lemma AtoiDecimal(n: nat)
    requires n <= MaxInt
    ensures Atoi(Decimal(n)) == n
  {
    DigitsOfDecimal(n);
    assert Unsigned(Decimal(n)) == Decimal(n);
  }

  /** The progress values the provider sends, one per scanned token. */
  function Reports(stdout: seq<byte>): (ps: seq<int>)
    ensures |ps| == |ScanAll(stdout)|
    ensures forall k :: 0 <= k < |ps| ==> ps[k] == Atoi(ScanAll(stdout)[k])
  {
    var toks := ScanAll(stdout);
    seq(|toks|, k requires 0 <= k < |toks| => Atoi(toks[k]))
  }

  /** What yt-dlp writes for a sequence of progress percentages: each value
      followed by a carriage return. */
  function Rendered(ps: seq<nat>): seq<byte> {
    if |ps| == 0 then [] else Decimal(ps[0]) + [CR] + Rendered(ps[1..])
  }

  /** The values yt-dlp prints are exactly the values the provider reports. */
  lemma {:induction false} ReportsRendered(ps: seq<nat>)
    requires forall k :: 0 <= k < |ps| ==> ps[k] <= MaxInt
    ensures Reports(Rendered(ps)) == ps
    decreases |ps|
  {
    if |ps| > 0 {
      var d := Decimal(ps[0]);
      var rest := Rendered(ps[1..]);
      var data := Rendered(ps);
      assert data == d + [CR] + rest;
      assert data[..|d|] == d;
      assert CR !in d by {
        forall i | 0 <= i < |d| ensures d[i] != CR { assert IsDigit(d[i]); }
      }
      FirstCRAt(data, |d|);
      assert data[|d| + 1..] == rest;
      ReportsRendered(ps[1..]);
      AtoiDecimal(ps[0]);
    }
  }
}
