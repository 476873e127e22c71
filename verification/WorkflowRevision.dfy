/** Ordering of workflow run revisions (`src/services/workflowTaskSnapshot.ts`).

    TaskService revisions are decimal strings of any length. The comparison
    never converts them to numbers: it strips leading zeros, compares lengths,
    and only then compares characters. The lemmas show that this is numeric
    order. */
module WorkflowRevision {
  import opened Common

  predicate IsDigit(c: char) { '0' <= c <= '9' }

  predicate IsDecimal(s: string) {
    s != "" && forall i :: 0 <= i < |s| ==> IsDigit(s[i])
  }

  function DigitValue(c: char): (d: nat)
    requires IsDigit(c)
    ensures d <= 9
  {
    c as int - '0' as int
  }

  /** Numeric value of a digit string, most significant digit first. */
  function Value(s: string): nat
    requires forall i :: 0 <= i < |s| ==> IsDigit(s[i])
  {
    if s == "" then 0 else 10 * Value(s[..|s| - 1]) + DigitValue(s[|s| - 1])
  }

  function Pow10(n: nat): (p: nat)
    ensures p >= 1
  {
    if n == 0 then 1 else 10 * Pow10(n - 1)
  }

  /** `replace(/^0+(?=\d)/, "")`: drops leading zeros that a digit follows. */
  function StripZeros(s: string): (r: string)
    decreases |s|
    ensures IsDecimal(s) ==> IsDecimal(r)
  {
    if |s| >= 2 && s[0] == '0' && IsDigit(s[1]) then StripZeros(s[1..]) else s
  }

  /** `localeCompare` on equally long digit strings: first difference decides. */
  function CompareText(a: string, b: string): int {
    if a == "" && b == "" then 0
    else if a == "" then -1
    else if b == "" then 1
    else if a[0] != b[0] then (if a[0] < b[0] then -1 else 1)
    else CompareText(a[1..], b[1..])
  }

  datatype Stamp = Stamp(revision: Option<string>, updatedAt: string)

  function RevisionText(s: Stamp): string {
    if s.revision.Some? then s.revision.value else "0"
  }

  function CompareWorkflowRevision(left: Stamp, right: Stamp): int {
    if left.revision.Some? || right.revision.Some? then
      var a := StripZeros(RevisionText(left));
      var b := StripZeros(RevisionText(right));
      if |a| != |b| then |a| - |b| else CompareText(a, b)
    else
      CompareText(left.updatedAt, right.updatedAt)
  }

  function Sign(n: int): int { if n < 0 then -1 else if n > 0 then 1 else 0 }

  /** A stamp whose revision, when present, is a decimal numeral. */
  predicate WellFormed(s: Stamp) {
    s.revision.Some? ==> IsDecimal(s.revision.value)
  }

  /** The number a stamp stands for; an absent revision counts as zero. */
  function Rank(s: Stamp): nat
    requires WellFormed(s)
  {
    Value(RevisionText(s))
  }

  // Removing the leading digit subtracts its weight.
  lemma {:induction false} ValueHead(s: string)
    requires IsDecimal(s)
    ensures Value(s) == DigitValue(s[0]) * Pow10(|s| - 1) + Value(s[1..])
    decreases |s|
  {
    if |s| > 1 {
      var init := s[..|s| - 1];
      ValueHead(init);
      assert s[1..][..|s| - 2] == init[1..];
      assert s[1..][|s| - 2] == s[|s| - 1];
      assert 10 * (DigitValue(s[0]) * Pow10(|s| - 2)) == DigitValue(s[0]) * Pow10(|s| - 1);
    }
  }

  lemma {:induction false} ValueBound(s: string)
    requires forall i :: 0 <= i < |s| ==> IsDigit(s[i])
    ensures Value(s) < Pow10(|s|)
    decreases |s|
  {
    if s != "" {
      ValueBound(s[..|s| - 1]);
    }
  }

  lemma {:induction false} Pow10Monotone(m: nat, n: nat)
    requires m <= n
    ensures Pow10(m) <= Pow10(n)
    decreases n
  {
    if m < n {
      Pow10Monotone(m, n - 1);
    }
  }

  // Stripping keeps the value and leaves a numeral without a leading zero.
  lemma {:induction false} StripZerosSound(s: string)
    requires IsDecimal(s)
    ensures Value(StripZeros(s)) == Value(s)
    ensures |StripZeros(s)| >= 2 ==> StripZeros(s)[0] != '0'
    decreases |s|
  {
    if |s| >= 2 && s[0] == '0' {
      ValueHead(s);
      StripZerosSound(s[1..]);
    }
  }

  // A larger leading digit outweighs everything behind it.
  lemma LeadingDigitDecides(d: nat, e: nat, w: nat, x: nat, y: nat)
    requires d < e && x < w
    ensures d * w + x < e * w + y
  {
    assert (d + 1) * w <= e * w;
    assert (d + 1) * w == d * w + w;
  }

  lemma {:induction false} EqualLengthOrder(a: string, b: string)
    requires |a| == |b|
    requires forall i :: 0 <= i < |a| ==> IsDigit(a[i]) && IsDigit(b[i])
    ensures Sign(CompareText(a, b)) == Sign(Value(a) - Value(b))
    decreases |a|
  {
    if a != "" {
      ValueHead(a);
      ValueHead(b);
      var w := Pow10(|a| - 1);
      var da, db := DigitValue(a[0]), DigitValue(b[0]);
      if da == db {
        EqualLengthOrder(a[1..], b[1..]);
      } else if da < db {
        ValueBound(a[1..]);
        LeadingDigitDecides(da, db, w, Value(a[1..]), Value(b[1..]));
      } else {
        ValueBound(b[1..]);
        LeadingDigitDecides(db, da, w, Value(b[1..]), Value(a[1..]));
      }
    }
  }

  // Without leading zeros the longer numeral is the larger number.
  lemma {:induction false} LongerIsLarger(a: string, b: string)
    requires IsDecimal(a) && IsDecimal(b) && |a| < |b| && b[0] != '0'
    ensures Value(a) < Value(b)
  {
    ValueBound(a);
    ValueHead(b);
    Pow10Monotone(|a|, |b| - 1);
    NonzeroDigitWeighs(DigitValue(b[0]), Pow10(|b| - 1));
  }

  lemma NonzeroDigitWeighs(d: nat, w: nat)
    requires d >= 1
    ensures d * w >= w
  {
    LeadingDigitDecides(0, d, w + 1, 0, 0);
  }

  /** The comparison has the sign of the difference of the numeric values. */
  lemma {:induction false} CompareIsNumeric(left: Stamp, right: Stamp)
    requires WellFormed(left) && WellFormed(right)
    requires left.revision.Some? || right.revision.Some?
    ensures Sign(CompareWorkflowRevision(left, right)) == Sign(Rank(left) - Rank(right))
  {
    var l, r := RevisionText(left), RevisionText(right);
    StripZerosSound(l);
    StripZerosSound(r);
    var a, b := StripZeros(l), StripZeros(r);
    if |a| < |b| {
      LongerIsLarger(a, b);
    } else if |b| < |a| {
      LongerIsLarger(b, a);
    } else {
      EqualLengthOrder(a, b);
    }
  }

  // ---- the order on all stamps --------------------------------------------------

  lemma {:induction false} CompareTextOrder(a: string, b: string, c: string)
    ensures CompareText(a, b) == 0 <==> a == b
    ensures CompareText(a, b) == -CompareText(b, a)
    ensures CompareText(a, b) <= 0 && CompareText(b, c) <= 0 ==> CompareText(a, c) <= 0
    decreases |a| + |b| + |c|
  {
    if a != "" && b != "" && c != "" {
      CompareTextOrder(a[1..], b[1..], c[1..]);
      assert a == [a[0]] + a[1..] && b == [b[0]] + b[1..];
    } else if a != "" && b != "" {
      CompareTextOrder(a[1..], b[1..], c);
      assert a == [a[0]] + a[1..] && b == [b[0]] + b[1..];
    }
  }

  /** Revision texts: the shorter one is smaller, equally long ones compare as text. */
  function CompareShortlex(a: string, b: string): int {
    if |a| != |b| then |a| - |b| else CompareText(a, b)
  }

  lemma ShortlexOrder(a: string, b: string, c: string)
    ensures CompareShortlex(a, b) == 0 <==> a == b
    ensures CompareShortlex(a, b) == -CompareShortlex(b, a)
    ensures CompareShortlex(a, b) <= 0 && CompareShortlex(b, c) <= 0 ==> CompareShortlex(a, c) <= 0
    ensures CompareShortlex(a, b) > 0 && CompareShortlex(b, c) > 0 ==> CompareShortlex(a, c) > 0
  {
    CompareTextOrder(a, b, c);
    CompareTextOrder(c, b, a);
    CompareTextOrder(a, c, b);
    CompareTextOrder(b, c, a);
  }

  /** What of the revision is compared; an absent one counts as zero. */
  function Digits(s: Stamp): string { StripZeros(RevisionText(s)) }

  lemma CompareShape(x: Stamp, y: Stamp)
    ensures CompareWorkflowRevision(x, y)
         == if x.revision.Some? || y.revision.Some? then CompareShortlex(Digits(x), Digits(y)) else CompareText(x.updatedAt, y.updatedAt)
  {
  }

  /** For stamps of any kind, numerals or not, with or without a revision: of two
      stamps one is at most the other, and "strictly newer" is transitive. */
  lemma StrictlyNewerIsTransitive(x: Stamp, y: Stamp, z: Stamp)
    ensures CompareWorkflowRevision(x, y) == -CompareWorkflowRevision(y, x)
    ensures CompareWorkflowRevision(x, y) > 0 && CompareWorkflowRevision(y, z) > 0 ==> CompareWorkflowRevision(x, z) > 0
  {
    CompareShape(x, y);
    CompareShape(y, x);
    CompareShape(y, z);
    CompareShape(x, z);
    CompareTextOrder(x.updatedAt, y.updatedAt, z.updatedAt);
    CompareTextOrder(z.updatedAt, y.updatedAt, x.updatedAt);
    CompareTextOrder(y.updatedAt, z.updatedAt, x.updatedAt);
    CompareTextOrder(x.updatedAt, z.updatedAt, y.updatedAt);
    ShortlexOrder(Digits(x), Digits(y), Digits(z));
    ShortlexOrder(Digits(y), Digits(z), Digits(x));
  }

  /** Two stamps without a revision around a zero one: each ties with it, and they
      compare by their time. */
  predicate AroundZero(x: Stamp, y: Stamp, z: Stamp)
    requires WellFormed(y)
  {
    x.revision.None? && z.revision.None? && y.revision.Some? && Rank(y) == 0 && CompareText(x.updatedAt, z.updatedAt) > 0
  }

  /** On numerals, and absent revisions counted as zero, "at most" is total, its ties
      are numeric equality (equal times where both revisions are absent), and it is
      transitive except exactly around a zero. */
  lemma CompareIsTotalPreorder(x: Stamp, y: Stamp, z: Stamp)
    requires WellFormed(x) && WellFormed(y) && WellFormed(z)
    ensures CompareWorkflowRevision(x, y) <= 0 || CompareWorkflowRevision(y, x) <= 0
    ensures CompareWorkflowRevision(x, y) == 0 <==>
            if x.revision.Some? || y.revision.Some? then Rank(x) == Rank(y) else x.updatedAt == y.updatedAt
    ensures (CompareWorkflowRevision(x, y) <= 0 && CompareWorkflowRevision(y, z) <= 0 ==> CompareWorkflowRevision(x, z) <= 0)
       <==> !AroundZero(x, y, z)
  {
    assert Value("0") == 0;
    if x.revision.Some? || y.revision.Some? { CompareIsNumeric(x, y); CompareIsNumeric(y, x); }
    if y.revision.Some? || z.revision.Some? { CompareIsNumeric(y, z); }
    if x.revision.Some? || z.revision.Some? { CompareIsNumeric(x, z); }
    CompareTextOrder(x.updatedAt, y.updatedAt, z.updatedAt);
  }

  /** The empty string is not a numeral: it compares below every numeral and below an
      absent revision, zero included. */
  lemma EmptyRevisionIsBelowAll(empty: Stamp, s: Stamp)
    requires empty.revision == Some("") && WellFormed(s)
    ensures CompareWorkflowRevision(empty, s) < 0 && CompareWorkflowRevision(s, empty) > 0
  {
    assert StripZeros("") == "";
    StripZerosSound(RevisionText(s));
  }
}
