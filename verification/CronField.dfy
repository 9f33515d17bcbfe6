/** Cron fields: the string matcher, and field trees whose printed form it must accept. */
module CronField {
  import opened Jobs
  import opened Text

  /** `Panics`: a step of zero divides by zero. */
  datatype Verdict = Yes | No | Panics

  function Test(b: bool): Verdict {
    if b then Yes else No
  }

  predicate AnyPartIs(parts: seq<string>, value: int) {
    parts != [] && (Atoi(TrimSpace(parts[0])) == Some(value) || AnyPartIs(parts[1..], value))
  }

  /** A comma list, or a single number. */
  function MatchListOrNumber(field: string, value: int): Verdict {
    if ',' in field then Test(AnyPartIs(Split(field, ','), value))
    else Test(Atoi(field) == Some(value))
  }

  function MatchField(field: string, value: int): Verdict {
    if field == "*" then Yes
    else if "*/" <= field then
      match Atoi(field[2..])
      case None => No
      case Some(step) => if step == 0 then Panics else Test(value % step == 0)
    else if '-' in field then
      var parts := Split(field, '-');
      if |parts| == 2 && Atoi(parts[0]).Some? && Atoi(parts[1]).Some?
      then Test(Atoi(parts[0]).value <= value <= Atoi(parts[1]).value)
      else MatchListOrNumber(field, value)
    else MatchListOrNumber(field, value)
  }

  // ---------------------------------------------------------------------------
  // Field trees
  // ---------------------------------------------------------------------------

  datatype Field = Any | Every(n: nat) | Range(a: nat, b: nat) | OneOf(vs: seq<nat>) | Exactly(v: nat)

  predicate WellFormed(f: Field) {
    match f
    case Any => true
    case Every(n) => 1 <= n <= MAX_INT64
    case Range(a, b) => a <= MAX_INT64 && b <= MAX_INT64
    case OneOf(vs) => |vs| >= 2 && forall v <- vs :: v <= MAX_INT64
    case Exactly(v) => v <= MAX_INT64
  }

  predicate Means(f: Field, value: int)
    requires WellFormed(f)
  {
    match f
    case Any => true
    case Every(n) => value % n == 0
    case Range(a, b) => a <= value <= b
    case OneOf(vs) => exists v <- vs :: v == value
    case Exactly(v) => v == value
  }

  function Numbers(vs: seq<nat>): (r: seq<string>)
    ensures |r| == |vs| && forall i :: 0 <= i < |vs| ==> r[i] == Itoa(vs[i])
  {
    if vs == [] then [] else [Itoa(vs[0])] + Numbers(vs[1..])
  }

  function Print(f: Field): string {
    match f
    case Any => "*"
    case Every(n) => "*/" + Itoa(n)
    case Range(a, b) => Itoa(a) + "-" + Itoa(b)
    case OneOf(vs) => Join(Numbers(vs), ',')
    case Exactly(v) => Itoa(v)
  }

  lemma {:induction false} JoinHasNone(parts: seq<string>, sep: char, c: char)
    requires c != sep && forall p <- parts :: c !in p
    ensures c !in Join(parts, sep)
  {
    if |parts| > 1 {
      JoinHasNone(parts[1..], sep, c);
    }
  }

  lemma {:induction false} JoinHasSeparator(parts: seq<string>, sep: char)
    requires |parts| >= 2
    ensures sep in Join(parts, sep)
  {
    assert Join(parts, sep)[|parts[0]|] == sep;
  }

  lemma {:induction false} AnyNumberIs(vs: seq<nat>, value: int)
    requires forall v <- vs :: v <= MAX_INT64
    ensures AnyPartIs(Numbers(vs), value) <==> exists v <- vs :: v == value
  {
    if vs != [] {
      assert vs[0] in vs && forall v <- vs[1..] :: v in vs;
      TrimDigits(Itoa(vs[0]));
      AtoiItoa(vs[0]);
      assert Numbers(vs)[1..] == Numbers(vs[1..]);
      AnyNumberIs(vs[1..], value);
      assert forall v :: v in vs <==> v == vs[0] || v in vs[1..];
    }
  }

  lemma {:induction false} MatchPrintedRange(a: nat, b: nat, value: int)
    requires a <= MAX_INT64 && b <= MAX_INT64
    ensures MatchField(Print(Range(a, b)), value) == Test(a <= value <= b)
  {
    var s := Itoa(a) + "-" + Itoa(b);
    assert IsDigit(Itoa(a)[0]) && s[0] == Itoa(a)[0];
    assert s[|Itoa(a)|] == '-';
    SplitFirst(Itoa(a), '-', Itoa(b));
    SplitNone(Itoa(b), '-');
    AtoiItoa(a);
    AtoiItoa(b);
  }

  lemma {:induction false} MatchPrintedList(vs: seq<nat>, value: int)
    requires WellFormed(OneOf(vs))
    ensures MatchField(Print(OneOf(vs)), value) == Test(exists v <- vs :: v == value)
  {
    var parts := Numbers(vs);
    var s := Join(parts, ',');
    assert IsDigit(parts[0][0]) && s[0] == parts[0][0];
    JoinHasNone(parts, ',', '-');
    JoinHasSeparator(parts, ',');
    SplitJoin(parts, ',');
    AnyNumberIs(vs, value);
  }

  /** The matcher accepts a value of a printed field exactly when the value is in the field's set; a step
      `n` means the multiples of `n`, not an offset from the field's minimum. */
  lemma {:induction false} MatchPrinted(f: Field, value: int)
    requires WellFormed(f)
    ensures MatchField(Print(f), value) == Test(Means(f, value))
  {
    match f
    case Any =>
    case Every(n) =>
      assert Print(f)[2..] == Itoa(n);
      AtoiItoa(n);
    case Range(a, b) => MatchPrintedRange(a, b, value);
    case OneOf(vs) => MatchPrintedList(vs, value);
    case Exactly(v) =>
      assert IsDigit(Itoa(v)[0]);
      DigitsHaveNone(Itoa(v), '-');
      DigitsHaveNone(Itoa(v), ',');
      AtoiItoa(v);
  }

  lemma {:induction false} PrintIsWord(f: Field)
    requires WellFormed(f)
    ensures IsWord(Print(f))
  {
    match f
    case OneOf(vs) => JoinedDigitsAreWord(Numbers(vs));
    case _ =>
  }

  lemma {:induction false} JoinedDigitsAreWord(parts: seq<string>)
    requires parts != [] && forall p <- parts :: p != [] && AllDigits(p)
    ensures IsWord(Join(parts, ','))
  {
    assert parts[0] in parts && forall p <- parts[1..] :: p in parts;
    assert forall c :: IsDigit(c) ==> !IsSpace(c);
    if |parts| > 1 {
      JoinedDigitsAreWord(parts[1..]);
    }
  }

  /** Joining printed fields with spaces and splitting the expression gives the same fields back. */
  lemma {:induction false} FieldsRoundTrip(fs: seq<Field>)
    requires forall f <- fs :: WellFormed(f)
    ensures Words(Join(PrintAll(fs), ' ')) == PrintAll(fs)
  {
    forall p <- PrintAll(fs)
      ensures IsWord(p)
    {
      var i :| 0 <= i < |fs| && PrintAll(fs)[i] == p;
      PrintIsWord(fs[i]);
    }
    WordsJoin(PrintAll(fs));
  }

  function PrintAll(fs: seq<Field>): (r: seq<string>)
    ensures |r| == |fs| && forall i :: 0 <= i < |fs| ==> r[i] == Print(fs[i])
  {
    if fs == [] then [] else [Print(fs[0])] + PrintAll(fs[1..])
  }
}
