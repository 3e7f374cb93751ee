/** The course catalogue: the fetched courses split into free and paid. */
module CoursesPage {
  import opened Http
  import opened Records

  /** `courses.filter(c => !c.requires_purchase)`. */
  function Free(cs: seq<Course>): (r: seq<Course>)
    ensures forall c :: c in r ==> c in cs && !c.requiresPurchase
    ensures forall c :: c in cs && !c.requiresPurchase ==> c in r
    decreases |cs|
  {
    if cs == [] then []
    else if cs[0].requiresPurchase then Free(cs[1..])
    else [cs[0]] + Free(cs[1..])
  }

  /** `courses.filter(c => c.requires_purchase)`. */
  function Paid(cs: seq<Course>): (r: seq<Course>)
    ensures forall c :: c in r ==> c in cs && c.requiresPurchase
    ensures forall c :: c in cs && c.requiresPurchase ==> c in r
    decreases |cs|
  {
    if cs == [] then []
    else if cs[0].requiresPurchase then [cs[0]] + Paid(cs[1..])
    else Paid(cs[1..])
  }

  /** The mount-time load replaces the list; a failure has no handler. */
  function Load(cs: seq<Course>, body: Option<seq<Course>>): (r: seq<Course>)
    ensures body.Some? ==> r == body.value
    ensures body.None? ==> r == cs
  {
    match body
    case Some(xs) => xs
    case None => cs
  }

  /** Every course appears in exactly one of the two lists, as often as in
      the fetched list. */
  lemma {:induction false} PartitionIsExact(cs: seq<Course>)
    ensures multiset(Free(cs)) + multiset(Paid(cs)) == multiset(cs)
    ensures |Free(cs)| + |Paid(cs)| == |cs|
    decreases |cs|
  {
    if cs != [] {
      PartitionIsExact(cs[1..]);
      assert cs == [cs[0]] + cs[1..];
    }
  }

  /** Both lists keep the fetched order: the split distributes over
      concatenation. */
  lemma PartitionKeepsOrder(a: seq<Course>, b: seq<Course>)
    ensures Free(a + b) == Free(a) + Free(b)
    ensures Paid(a + b) == Paid(a) + Paid(b)
  {
    FreeConcat(a, b);
    PaidConcat(a, b);
  }

  lemma {:induction false} FreeConcat(a: seq<Course>, b: seq<Course>)
    ensures Free(a + b) == Free(a) + Free(b)
    decreases |a|
  {
    if a == [] {
      assert a + b == b;
    } else {
      assert (a + b)[1..] == a[1..] + b;
      FreeConcat(a[1..], b);
    }
  }

  lemma {:induction false} PaidConcat(a: seq<Course>, b: seq<Course>)
    ensures Paid(a + b) == Paid(a) + Paid(b)
    decreases |a|
  {
    if a == [] {
      assert a + b == b;
    } else {
      assert (a + b)[1..] == a[1..] + b;
      PaidConcat(a[1..], b);
    }
  }
}
