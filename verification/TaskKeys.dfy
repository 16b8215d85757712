/**
 Task keys: the text form of a task id, which the slot accounting uses as set
 element, and the parser that inverts it.
 */
module TaskKeys {
  import opened Options
  import opened Jobs

  const U32_LIMIT := 0x1_0000_0000

  // ---------------------------------------------------------------- numbers

  function Digit(d: nat): char
    requires d < 10
  {
    ('0' as int + d) as char
  }

  function Decimal(n: nat): (s: string)
    ensures |s| > 0
  {
    if n < 10 then [Digit(n)] else Decimal(n / 10) + [Digit(n % 10)]
  }

  function DigitValue(c: char): Option<nat> {
    if '0' <= c <= '9' then Some(c as int - '0' as int) else None
  }

  /** The value of a non-empty run of digits. */
  function DigitsValue(s: string): Option<nat>
    requires |s| > 0
  {
    match DigitValue(s[|s| - 1])
    case None => None
    case Some(d) =>
      if |s| == 1 then Some(d)
      else
        match DigitsValue(s[..|s| - 1])
        case None => None
        case Some(n) => Some(10 * n + d)
  }

  /** A 32-bit number: one plus sign may lead, leading zeros are accepted, and
      a value that does not fit is an error. */
  function ParseU32(s: string): Option<nat> {
    var digits := if |s| > 0 && s[0] == '+' then s[1..] else s;
    if |digits| == 0 then None
    else
      match DigitsValue(digits)
      case None => None
      case Some(n) => if n < U32_LIMIT then Some(n) else None
  }

  lemma {:induction false} DecimalValue(n: nat)
    ensures DigitsValue(Decimal(n)) == Some(n)
    ensures forall i :: 0 <= i < |Decimal(n)| ==> '0' <= Decimal(n)[i] <= '9'
  {
    if n >= 10 {
      DecimalValue(n / 10);
      assert Decimal(n)[..|Decimal(n)| - 1] == Decimal(n / 10);
    }
  }

  lemma ParseDecimal(n: nat)
    ensures ParseU32(Decimal(n)) == if n < U32_LIMIT then Some(n) else None
  {
    DecimalValue(n);
  }

  predicate CanonicalDigits(s: string) {
    |s| > 0 && (s[0] == '0' ==> |s| == 1)
  }

  /** Only a numeral without sign and leading zeros prints back as itself. */
  lemma {:induction false} ValueDecimal(s: string)
    requires |s| > 0 && DigitsValue(s).Some?
    ensures Decimal(DigitsValue(s).value) == s <==> CanonicalDigits(s)
    ensures DigitsValue(s).value == 0 ==> s[0] == '0'
  {
    if |s| > 1 {
      var front, d := s[..|s| - 1], DigitValue(s[|s| - 1]).value;
      ValueDecimal(front);
      var m := DigitsValue(front).value;
      var n := DigitsValue(s).value;
      assert n == 10 * m + d && n / 10 == m && n % 10 == d;
      assert s == front + [s[|s| - 1]] && Digit(d) == s[|s| - 1];
      if n >= 10 {
        assert Decimal(n) == Decimal(m) + [Digit(d)];
        assert Decimal(n)[..|Decimal(n)| - 1] == Decimal(m);
      } else {
        assert m == 0 && front[0] == '0' && |Decimal(n)| == 1;
      }
    }
  }

  // ---------------------------------------------------------------- keys

  function Field(prefix: char, n: nat): string {
    [prefix] + Decimal(n)
  }

  function Print(id: TaskId): string {
    id.job + "/" + Field('s', id.stage) + "/" + Field('p', id.partition) + "/" + Field('a', id.attempt)
  }

  /** Split at the last separator. */
  function CutLast(s: string, sep: char): (r: Option<(string, string)>)
    ensures r.Some? ==> s == r.value.0 + [sep] + r.value.1 && sep !in r.value.1
    ensures r.None? ==> sep !in s
  {
    if |s| == 0 then None
    else if s[|s| - 1] == sep then Some((s[..|s| - 1], ""))
    else
      match CutLast(s[..|s| - 1], sep)
      case None => None
      case Some((a, b)) => Some((a, b + [s[|s| - 1]]))
  }

  /** The number after a one-letter prefix. */
  function ParseField(s: string, prefix: char): Option<nat> {
    if |s| == 0 || s[0] != prefix then None else ParseU32(s[1..])
  }

  /** The last three slash-separated fields are numbers, whatever precedes them
      is the job id, slashes and all. */
  function ParseTaskKey(key: string): Option<TaskId> {
    match CutLast(key, '/')
    case None => None
    case Some((front, a)) =>
      match CutLast(front, '/')
      case None => None
      case Some((head, p)) =>
        match CutLast(head, '/')
        case None => None
        case Some((job, s)) =>
          match (ParseField(a, 'a'), ParseField(p, 'p'), ParseField(s, 's'))
          case (Some(attempt), Some(partition), Some(stage)) => Some(TaskId(job, stage, partition, attempt))
          case _ => None
  }

  lemma {:induction false} CutLastNone(s: string, sep: char)
    requires sep !in s
    ensures CutLast(s, sep) == None
  {
    if |s| > 0 {
      assert s[|s| - 1] in s;
      CutLastNone(s[..|s| - 1], sep);
    }
  }

  lemma {:induction false} CutLastUnique(a: string, b: string, sep: char)
    requires sep !in b
    ensures CutLast(a + [sep] + b, sep) == Some((a, b))
  {
    var s := a + [sep] + b;
    if |b| == 0 {
      assert s[..|s| - 1] == a;
    } else {
      assert s[..|s| - 1] == a + [sep] + b[..|b| - 1];
      CutLastUnique(a, b[..|b| - 1], sep);
      assert b == b[..|b| - 1] + [b[|b| - 1]];
    }
  }

  lemma FieldParses(prefix: char, n: nat)
    requires prefix != '/'
    ensures '/' !in Field(prefix, n)
    ensures ParseField(Field(prefix, n), prefix) == if n < U32_LIMIT then Some(n) else None
  {
    DecimalValue(n);
    ParseDecimal(n);
    assert Field(prefix, n)[1..] == Decimal(n);
  }

  /** The printed form, cut at its last three slashes. */
  lemma PrintCuts(id: TaskId)
    ensures var head := id.job + "/" + Field('s', id.stage);
      var front := head + "/" + Field('p', id.partition);
      && CutLast(Print(id), '/') == Some((front, Field('a', id.attempt)))
      && CutLast(front, '/') == Some((head, Field('p', id.partition)))
      && CutLast(head, '/') == Some((id.job, Field('s', id.stage)))
  {
    var head := id.job + "/" + Field('s', id.stage);
    var front := head + "/" + Field('p', id.partition);
    FieldParses('s', id.stage);
    FieldParses('p', id.partition);
    FieldParses('a', id.attempt);
    CutLastUnique(id.job, Field('s', id.stage), '/');
    CutLastUnique(head, Field('p', id.partition), '/');
    CutLastUnique(front, Field('a', id.attempt), '/');
  }

  predicate FitsU32(id: TaskId) {
    id.stage < U32_LIMIT && id.partition < U32_LIMIT && id.attempt < U32_LIMIT
  }

  /** Every task id is recovered from its key, even if the job id contains slashes. */
  lemma RoundTrip(id: TaskId)
    ensures ParseTaskKey(Print(id)) == if FitsU32(id) then Some(id) else None
  {
    PrintCuts(id);
    FieldParses('s', id.stage);
    FieldParses('p', id.partition);
    FieldParses('a', id.attempt);
  }

  lemma FieldInjective(prefix: char, m: nat, n: nat)
    requires Field(prefix, m) == Field(prefix, n)
    ensures m == n
  {
    assert Field(prefix, m)[1..] == Decimal(m) && Field(prefix, n)[1..] == Decimal(n);
    DecimalValue(m);
    DecimalValue(n);
  }

  /** So two attempts never share a key. */
  lemma PrintInjective(a: TaskId, b: TaskId)
    requires Print(a) == Print(b)
    ensures a == b
  {
    PrintCuts(a);
    PrintCuts(b);
    FieldInjective('s', a.stage, b.stage);
    FieldInjective('p', a.partition, b.partition);
    FieldInjective('a', a.attempt, b.attempt);
  }

  /** `s` is the prefix and a canonical numeral. */
  predicate CanonicalField(s: string, prefix: char) {
    |s| > 1 && s[0] == prefix && s[1] != '+' && CanonicalDigits(s[1..])
  }

  lemma FieldPrintsBack(s: string, prefix: char)
    requires ParseField(s, prefix).Some?
    ensures Field(prefix, ParseField(s, prefix).value) == s <==> CanonicalField(s, prefix)
  {
    var n := ParseField(s, prefix).value;
    assert s == [prefix] + s[1..];
    assert Field(prefix, n)[1..] == Decimal(n);
    DecimalValue(n);
    if s[1] != '+' {
      ValueDecimal(s[1..]);
    }
  }

  /** A key the parser accepts is the key of the id it yields exactly when its
      three numbers are written without sign and leading zeros. */
  lemma ParsedPrintsBack(key: string)
    requires ParseTaskKey(key).Some?
    ensures Print(ParseTaskKey(key).value) == key <==>
      var (front, a) := CutLast(key, '/').value;
      var (head, p) := CutLast(front, '/').value;
      var (_, s) := CutLast(head, '/').value;
      CanonicalField(a, 'a') && CanonicalField(p, 'p') && CanonicalField(s, 's')
  {
    var id := ParseTaskKey(key).value;
    var (front, a) := CutLast(key, '/').value;
    var (head, p) := CutLast(front, '/').value;
    var (_, s) := CutLast(head, '/').value;
    FieldPrintsBack(a, 'a');
    FieldPrintsBack(p, 'p');
    FieldPrintsBack(s, 's');
    PrintCuts(id);
  }
}
