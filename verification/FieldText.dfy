/** The cron matcher on every field text, and the string functions under it pinned on every string. */
module FieldText {
  import opened Jobs
  import opened Text
  import opened CronField
  import opened Calendar
  import opened Cron
  import opened CronWindow

  // ---------------------------------------------------------------------------
  // The string functions
  // ---------------------------------------------------------------------------

  lemma {:induction false} JoinSplitCons(x: string, parts: seq<string>, c: char)
    requires parts != []
    ensures Join([x] + parts, c) == x + [c] + Join(parts, c)
  {
    assert ([x] + parts)[1..] == parts;
  }

  /** Splitting cuts at every separator and only there: joining gives the text back, and no part holds one. */
  lemma {:induction false} SplitParts(s: string, c: char)
    ensures Join(Split(s, c), c) == s && forall p <- Split(s, c) :: c !in p
  {
    if s != [] {
      SplitParts(s[1..], c);
      var r := Split(s[1..], c);
      assert s == [s[0]] + s[1..];
      if s[0] == c {
        JoinSplitCons([], r, c);
        assert [] + [c] + s[1..] == s;
      } else {
        assert Split(s, c) == [[s[0]] + r[0]] + r[1..];
        JoinFirst(s[0], r, c);
        assert c !in r[0];
      }
    }
  }

  /** A character put before the first part is put before the whole. */
  lemma {:induction false} JoinFirst(x: char, r: seq<string>, c: char)
    requires r != []
    ensures Join([[x] + r[0]] + r[1..], c) == [x] + Join(r, c)
  {
    var first := [x] + r[0];
    if |r| == 1 {
      assert [first] + r[1..] == [first];
    } else {
      JoinSplitCons(first, r[1..], c);
      assert [x] + (r[0] + [c] + Join(r[1..], c)) == first + [c] + Join(r[1..], c);
    }
  }

  /** A character of the text other than the separator is in one of the parts. */
  lemma {:induction false} PartWith(s: string, c: char, x: char)
    requires x in s && x != c
    ensures exists p <- Split(s, c) :: x in p
  {
    var r := Split(s[1..], c);
    if s[0] == x {
      assert x in Split(s, c)[0];
    } else {
      assert s == [s[0]] + s[1..];
      PartWith(s[1..], c, x);
      var i :| 0 <= i < |r| && x in r[i];
      if s[0] == c {
        assert Split(s, c)[i + 1] == r[i];
      } else {
        assert x in Split(s, c)[i];
      }
    }
  }

  /** A text with a comma in it is no number. */
  lemma {:induction false} OddCharacter(s: string, x: char)
    requires x in s && !IsDigit(x) && x != '+' && x != '-'
    ensures Atoi(s) == None
  {
    var i :| 0 <= i < |s| && s[i] == x;
    if i > 0 {
      assert s[1..][i - 1] == x && x in s[1..];
    }
  }

  function Zeros(n: nat): string {
    if n == 0 then [] else Zeros(n - 1) + ['0']
  }

  /** Zeros before the digits of `n`; of zero itself only zeros. */
  function Leading(zeros: nat, n: nat): string {
    Zeros(zeros) + Itoa(n)
  }

  lemma {:induction false} ZerosAre(n: nat)
    ensures |Zeros(n)| == n && forall i :: 0 <= i < n ==> Zeros(n)[i] == '0'
  {
    if n > 0 {
      ZerosAre(n - 1);
    }
  }

  lemma {:induction false} ValueLeading(zeros: nat, n: nat)
    ensures AllDigits(Leading(zeros, n)) && Value(Leading(zeros, n)) == n && Leading(zeros, n) != []
    decreases n
  {
    ZerosAre(zeros);
    var s := Leading(zeros, n);
    assert forall c <- s :: c in Zeros(zeros) || c in Itoa(n);
    if n < 10 {
      ValueZeros(zeros);
      assert s[..|s| - 1] == Zeros(zeros);
    } else {
      ValueLeading(zeros, n / 10);
      assert s[..|s| - 1] == Leading(zeros, n / 10);
    }
  }

  lemma {:induction false} ValueZeros(n: nat)
    ensures AllDigits(Zeros(n)) && Value(Zeros(n)) == 0
  {
    ZerosAre(n);
    if n > 0 {
      ValueZeros(n - 1);
      assert Zeros(n)[..n - 1] == Zeros(n - 1);
    }
  }

  /** Digits are a printed number behind zeros. */
  lemma {:induction false} DigitsAreLeading(s: string) returns (zeros: nat)
    requires s != [] && AllDigits(s)
    ensures s == Leading(zeros, Value(s))
  {
    var n := |s| - 1;
    assert s[n] in s && s == s[..n] + [s[n]] && forall c <- s[..n] :: c in s;
    var d := s[n] as int - '0' as int;
    zeros := 0;
    if n > 0 {
      zeros := DigitsAreLeading(s[..n]);
    }
    zeros := OneDigitMore(s[..n], s[n], d, zeros);
  }

  lemma {:induction false} OneDigitMore(s: string, c: char, d: nat, zeros: nat) returns (zeros': nat)
    requires AllDigits(s) && IsDigit(c) && d == c as int - '0' as int && (s != [] ==> s == Leading(zeros, Value(s)))
    ensures AllDigits(s + [c]) && s + [c] == Leading(zeros', Value(s + [c]))
  {
    assert forall x <- s + [c] :: x in s || x == c;
    assert (s + [c])[..|s|] == s;
    var v := Value(s);
    assert Value(s + [c]) == 10 * v + d && DigitChar(d) == c;
    if s == [] {
      zeros' := 0;
      assert Itoa(d) == [c];
    } else if v == 0 {
      zeros' := zeros + 1;
      assert Itoa(0) == ['0'] && Itoa(d) == [c];
    } else {
      zeros' := zeros;
      assert Itoa(10 * v + d) == Itoa(v) + [c] by {
        TensAndUnits(v, d);
      }
    }
  }

  lemma {:induction false} TensAndUnits(v: nat, d: nat)
    requires v > 0 && d <= 9
    ensures Itoa(10 * v + d) == Itoa(v) + [DigitChar(d)]
  {
    assert (10 * v + d) / 10 == v && (10 * v + d) % 10 == d;
  }

  /** A sign, as many zeros, and the printed number. */
  predicate WrittenAs(s: string, v: int, sign: string, zeros: nat) {
    && (sign == "" || sign == "+" || sign == "-")
    && (if sign == "-" then v <= 0 else v >= 0)
    && s == sign + Leading(zeros, if v < 0 then 0 - v else v)
  }

  ghost predicate Writes(s: string, v: int) {
    exists sign, zeros :: WrittenAs(s, v, sign, zeros)
  }

  /** Parsing a number: a text is accepted with value `v` exactly when it is `v` printed, behind any number of
      zeros and an optional sign, and `v` fits into 64 bits. */
  lemma {:induction false} AtoiIff(s: string, v: int)
    ensures Atoi(s) == Some(v) <==> Fits64(v) && Writes(s, v)
  {
    if Atoi(s) == Some(v) {
      AtoiWritten(s, v);
    }
    if sign, zeros :| WrittenAs(s, v, sign, zeros) {
      WrittenAtoi(s, v, sign, zeros);
    }
  }

  lemma {:induction false} WrittenAtoi(s: string, v: int, sign: string, zeros: nat)
    requires WrittenAs(s, v, sign, zeros)
    ensures Atoi(s) == if Fits64(v) then Some(v) else None
  {
    var n := if v < 0 then 0 - v else v;
    var digits := Leading(zeros, n);
    ValueLeading(zeros, n);
    assert IsDigit(digits[0]);
    if sign == "" {
      assert s == digits;
    } else {
      assert s[1..] == digits && s[0] == sign[0];
    }
  }

  lemma {:induction false} AtoiWritten(s: string, v: int)
    requires Atoi(s) == Some(v)
    ensures Writes(s, v)
  {
    var signed := s[0] == '-' || s[0] == '+';
    var sign := if signed then [s[0]] else [];
    var digits := if signed then s[1..] else s;
    assert s == sign + digits;
    var zeros := DigitsAreLeading(digits);
    assert WrittenAs(s, v, sign, zeros);
  }

  ghost predicate Blank(s: string) {
    forall c <- s :: IsSpace(c)
  }

  lemma {:induction false} TrimLeftParts(s: string) returns (a: string)
    ensures Blank(a) && s == a + TrimLeft(s) && (TrimLeft(s) != [] ==> !IsSpace(TrimLeft(s)[0]))
  {
    if s != [] && IsSpace(s[0]) {
      var rest := TrimLeftParts(s[1..]);
      a := [s[0]] + rest;
      assert s == [s[0]] + s[1..];
    } else {
      a := [];
    }
  }

  lemma {:induction false} TrimRightParts(s: string) returns (b: string)
    ensures Blank(b) && s == TrimRight(s) + b && (TrimRight(s) != [] ==> !IsSpace(TrimRight(s)[|TrimRight(s)| - 1]))
  {
    if s != [] && IsSpace(s[|s| - 1]) {
      var rest := TrimRightParts(s[..|s| - 1]);
      b := rest + [s[|s| - 1]];
      assert s == s[..|s| - 1] + [s[|s| - 1]];
    } else {
      b := [];
    }
  }

  /** Trimming takes white space off both ends, and all of it. */
  lemma {:induction false} TrimParts(s: string) returns (a: string, b: string)
    ensures Blank(a) && Blank(b) && s == a + TrimSpace(s) + b
    ensures var t := TrimSpace(s); t != [] ==> !IsSpace(t[0]) && !IsSpace(t[|t| - 1])
  {
    a := TrimLeftParts(s);
    b := TrimRightParts(TrimLeft(s));
    assert TrimSpace(s) != [] ==> TrimSpace(s)[0] == TrimLeft(s)[0];
  }

  lemma {:induction false} WordsSkip(s: string)
    requires s != [] && IsSpace(s[0])
    ensures Words(s) == Words(s[1..])
  {
  }

  /** Splitting into fields: a white space character separates, and only it does. */
  lemma {:induction false} WordsCut(x: string, c: char, y: string)
    requires IsSpace(c)
    ensures Words(x + [c] + y) == Words(x) + Words(y)
    decreases |x|
  {
    var s := x + [c] + y;
    if x == [] {
      assert s[1..] == y;
    } else if IsSpace(x[0]) {
      assert s[1..] == x[1..] + [c] + y;
      WordsCut(x[1..], c, y);
    } else {
      var n := WordLength(x);
      WordLengthSpec(x);
      assert x == x[..n] + x[n..];
      assert s == x[..n] + (x[n..] + [c] + y);
      WordPrefix(x[..n], x[n..] + [c] + y);
      assert s[..n] == x[..n] && s[n..] == x[n..] + [c] + y;
      WordsCut(x[n..], c, y);
    }
  }

  lemma {:induction false} WordLengthSpec(x: string)
    ensures var n := WordLength(x);
            (forall ch <- x[..n] :: !IsSpace(ch)) && (n == |x| || IsSpace(x[n])) && (x != [] && !IsSpace(x[0]) ==> n > 0)
  {
    if x != [] && !IsSpace(x[0]) {
      WordLengthSpec(x[1..]);
      var n := WordLength(x);
      assert x[..n] == [x[0]] + x[1..][..n - 1];
    }
  }

  /** And a text without any is one field. */
  lemma {:induction false} OneWord(x: string)
    ensures IsWord(x) ==> Words(x) == [x]
    ensures x == [] ==> Words(x) == []
  {
    if IsWord(x) {
      WordsJoin([x]);
    }
  }

  // ---------------------------------------------------------------------------
  // What a field text accepts
  // ---------------------------------------------------------------------------

  predicate IsStep(field: string) {
    "*/" <= field
  }

  /** One of the parts between commas is the number, white space aside. */
  ghost predicate ListHolds(field: string, v: int) {
    exists p <- Split(field, ',') :: Atoi(TrimSpace(p)) == Some(v)
  }

  /** Two numbers around the only dash. */
  ghost predicate IsRange(field: string, x: string, y: string, a: int, b: int) {
    field == x + ['-'] + y && '-' !in x && '-' !in y && Atoi(x) == Some(a) && Atoi(y) == Some(b)
  }

  ghost predicate SomeRange(field: string) {
    exists x, y, a, b :: IsRange(field, x, y, a, b)
  }

  lemma {:induction false} AnyPartIff(parts: seq<string>, v: int)
    ensures AnyPartIs(parts, v) <==> exists p <- parts :: Atoi(TrimSpace(p)) == Some(v)
  {
    if parts != [] {
      AnyPartIff(parts[1..], v);
      assert parts == [parts[0]] + parts[1..];
    }
  }

  /** The matcher takes the range branch exactly for two numbers around a single dash. */
  lemma {:induction false} RangeSplit(field: string)
    ensures var parts := Split(field, '-');
            (|parts| == 2 && Atoi(parts[0]).Some? && Atoi(parts[1]).Some?) <==> SomeRange(field)
    ensures var parts := Split(field, '-');
            |parts| == 2 && Atoi(parts[0]).Some? && Atoi(parts[1]).Some?
            ==> IsRange(field, parts[0], parts[1], Atoi(parts[0]).value, Atoi(parts[1]).value)
  {
    var parts := Split(field, '-');
    SplitParts(field, '-');
    if |parts| == 2 && Atoi(parts[0]).Some? && Atoi(parts[1]).Some? {
      assert parts[0] in parts && parts[1] in parts;
      assert Join(parts[1..], '-') == parts[1];
      assert IsRange(field, parts[0], parts[1], Atoi(parts[0]).value, Atoi(parts[1]).value);
    }
    if x, y, a, b :| IsRange(field, x, y, a, b) {
      SplitFirst(x, '-', y);
      SplitNone(y, '-');
    }
  }

  lemma {:induction false} CommaIsNoRange(field: string)
    requires ',' in field
    ensures !SomeRange(field)
  {
    forall x, y, a, b
      ensures !IsRange(field, x, y, a, b)
    {
      if IsRange(field, x, y, a, b) {
        assert ',' in x || ',' in y;
        if ',' in x {
          OddCharacter(x, ',');
        } else {
          OddCharacter(y, ',');
        }
      }
    }
  }

  /** A text with a comma is a list, also when it holds a dash: it accepts a value exactly when one of its
      parts is that number. */
  lemma {:induction false} CommaAccepts(field: string, v: int)
    requires ',' in field && !IsStep(field)
    ensures MatchField(field, v) == Test(ListHolds(field, v))
  {
    CommaIsNoRange(field);
    RangeSplit(field);
    AnyPartIff(Split(field, ','), v);
  }

  /** A text with a dash and no comma that is not two numbers accepts exactly its own number, if it is one. */
  lemma {:induction false} DashAccepts(field: string, v: int)
    requires '-' in field && ',' !in field && !IsStep(field) && !SomeRange(field)
    ensures MatchField(field, v) == Test(Atoi(field) == Some(v))
  {
    RangeSplit(field);
  }

  lemma {:induction false} RangeAccepts(field: string, x: string, y: string, a: int, b: int, v: int)
    requires IsRange(field, x, y, a, b)
    ensures MatchField(field, v) == Test(a <= v <= b)
  {
    SplitFirst(x, '-', y);
    SplitNone(y, '-');
    assert field[|x|] == '-';
    RangeNoStep(field, x, y, a, b);
  }

  lemma {:induction false} RangeNoStep(field: string, x: string, y: string, a: int, b: int)
    requires IsRange(field, x, y, a, b)
    ensures !IsStep(field)
  {
    assert x != [] && field[0] == x[0];
    if x[0] == '*' {
      OddCharacter(x, '*');
    }
  }

  /** The values a field text stands for, whatever the text. */
  ghost predicate Accepts(field: string, v: int) {
    || field == "*"
    || (IsStep(field) && exists n :: n != 0 && Atoi(field[2..]) == Some(n) && v % n == 0)
    || (!IsStep(field) && ',' in field && ListHolds(field, v))
    || (exists x, y, a, b :: IsRange(field, x, y, a, b) && a <= v <= b)
    || (',' !in field && Atoi(field) == Some(v))
  }

  predicate ZeroStep(field: string) {
    IsStep(field) && Atoi(field[2..]) == Some(0)
  }

  lemma {:induction false} NumberIsPlain(field: string, v: int)
    requires Atoi(field) == Some(v)
    ensures field != "*" && !IsStep(field) && !SomeRange(field) && ',' !in field
  {
    if field[0] == '*' {
      OddCharacter(field, '*');
    }
    if ',' in field {
      OddCharacter(field, ',');
    }
    forall x, y, a, b
      ensures !IsRange(field, x, y, a, b)
    {
      if IsRange(field, x, y, a, b) {
        NumberNoRange(field, x, y, a, b, v);
      }
    }
  }

  lemma {:induction false} NumberNoRange(field: string, x: string, y: string, a: int, b: int, v: int)
    requires IsRange(field, x, y, a, b)
    ensures Atoi(field) != Some(v)
  {
    assert x != [];
    assert field[|x|] == '-' && field[1..][|x| - 1] == '-' && '-' in field[1..] && '-' in field;
  }

  /** The matcher on every text: it panics exactly on a zero step, and otherwise accepts exactly the values
      the text stands for. */
  lemma {:induction false} MatchFieldIff(field: string, v: int)
    ensures MatchField(field, v) == if ZeroStep(field) then Panics else Test(Accepts(field, v))
  {
    if Atoi(field) == Some(v) {
      NumberIsPlain(field, v);
    }
    if ',' in field {
      CommaIsNoRange(field);
    }
    if x, y, a, b :| IsRange(field, x, y, a, b) {
      InRange(field, x, y, a, b, v);
    } else if field == "*" {
    } else if IsStep(field) {
    } else if ',' in field {
      CommaAccepts(field, v);
    } else if '-' in field {
      DashAccepts(field, v);
    }
  }

  lemma {:induction false} InRange(field: string, x: string, y: string, a: int, b: int, v: int)
    requires IsRange(field, x, y, a, b)
    ensures MatchField(field, v) == Test(Accepts(field, v)) && !IsStep(field)
  {
    RangeAccepts(field, x, y, a, b, v);
    RangeNoStep(field, x, y, a, b);
    if ',' in field {
      CommaIsNoRange(field);
    }
    NumberNoRange(field, x, y, a, b, v);
    assert field[|x|] == '-' && field != "*";
    forall x', y', a', b' | IsRange(field, x', y', a', b')
      ensures a' == a && b' == b
    {
      SplitFirst(x, '-', y);
      SplitNone(y, '-');
      SplitFirst(x', '-', y');
      SplitNone(y', '-');
    }
  }

  // ---------------------------------------------------------------------------
  // Schedules
  // ---------------------------------------------------------------------------

  predicate FiveTexts(parts: seq<string>) {
    |parts| == 5 && forall p <- parts :: IsWord(p) && !ZeroStep(p)
  }

  ghost predicate AcceptsAt(parts: seq<string>, t: Stamp)
    requires |parts| == 5
  {
    && Accepts(parts[0], t.minute) && Accepts(parts[1], t.hour) && Accepts(parts[2], t.day)
    && Accepts(parts[3], t.month) && Accepts(parts[4], t.weekday)
  }

  /** ParseCron on any five field texts without a zero step, lists of ranges and numbers included, finds
      exactly the earliest minute of the window that all five accept, fails exactly when there is none, and
      never panics. */
  lemma {:induction false} TextSchedule(parts: seq<string>, fires: nat -> bool, m: nat, k: nat)
    requires FiveTexts(parts) && forall j: nat :: fires(j) <==> AcceptsAt(parts, At(j))
    ensures var r := NextAfter(Join(parts, ' '), m);
            && (r == NextRun(k) <==> FirstOf(fires, m, k))
            && (r == NoMatch <==> NoneOf(fires, m))
            && (r.NextRun? || r.NoMatch?)
  {
    WordsJoin(parts);
    var says := Verdicts(Matcher(parts));
    forall j: nat
      ensures says(j) == Test(fires(j))
    {
      TextVerdict(parts, At(j));
    }
    SearchBy(says, fires, m, k);
  }

  lemma {:induction false} TextVerdict(parts: seq<string>, t: Stamp)
    requires FiveTexts(parts)
    ensures MatchStamp(parts, t) == Test(AcceptsAt(parts, t))
  {
    assert forall i :: 0 <= i < 5 ==> parts[i] in parts;
    MatchFieldIff(parts[0], t.minute);
    MatchFieldIff(parts[1], t.hour);
    MatchFieldIff(parts[2], t.day);
    MatchFieldIff(parts[3], t.month);
    MatchFieldIff(parts[4], t.weekday);
  }

  /** A range in a list is no number, so it is passed over: "a-b,c" accepts `c` alone. */
  lemma {:induction false} RangeInList(a: nat, b: nat, c: nat, v: int)
    requires c <= MAX_INT64
    ensures Accepts(Itoa(a) + "-" + Itoa(b) + "," + Itoa(c), v) <==> v == c
  {
    var range, field := Itoa(a) + "-" + Itoa(b), Itoa(a) + "-" + Itoa(b) + "," + Itoa(c);
    assert IsDigit(field[0]) && field[|range|] == ',';
    assert field == range + [','] + Itoa(c) && ',' in field;
    CommaIsNoRange(field);
    SplitFirst(range, ',', Itoa(c));
    SplitNone(Itoa(c), ',');
    RangeIsNoNumber(range, |Itoa(a)|);
    TrimInner(range);
    TrimDigits(Itoa(c));
    AtoiItoa(c);
    assert Split(field, ',') == [range, Itoa(c)];
    if Atoi(field) == Some(v) {
      NumberIsPlain(field, v);
    }
  }

  lemma {:induction false} RangeIsNoNumber(s: string, i: nat)
    requires 0 < i < |s| && s[i] == '-'
    ensures Atoi(s) == None
  {
    assert s[1..][i - 1] == '-' && '-' in s[1..] && '-' in s;
  }

  lemma {:induction false} TrimInner(s: string)
    requires s != [] && !IsSpace(s[0]) && !IsSpace(s[|s| - 1])
    ensures TrimSpace(s) == s
  {
  }
}
