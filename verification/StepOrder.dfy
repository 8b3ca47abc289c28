/** The order in which the stepper lists a run's steps: by `sequence`. */
module StepOrder {
  import opened RecordsModel
  import opened Sorting

  function BySequence(): (StepKey, StepKey) -> bool {
    (a, b) => Sequence(a) <= Sequence(b)
  }

  /** A possible answer of `orderBy sequence asc` for steps recorded in the order `arrival`. */
  ghost predicate Listing(arrival: seq<StepKey>, listed: seq<StepKey>) {
    multiset(listed) == multiset(arrival) && SortedBy(BySequence(), listed)
  }

  predicate CartKey(k: StepKey) { k.CheckCartCheckout? || k.SendCartReminder? }

  /** All steps belong to the order workflow, or all to the cart workflow. */
  predicate OneWorkflow(keys: seq<StepKey>) {
    (forall k :: k in keys ==> CartKey(k)) || (forall k :: k in keys ==> !CartKey(k))
  }

  /** The steps of one workflow are listed the same way however they arrived. */
  lemma ListingIgnoresArrival(arrival: seq<StepKey>, arrival': seq<StepKey>, listed: seq<StepKey>, listed': seq<StepKey>)
    requires OneWorkflow(arrival) && multiset(arrival) == multiset(arrival')
    requires Listing(arrival, listed) && Listing(arrival', listed')
    ensures listed == listed'
  {
    forall k | k in listed
      ensures k in arrival
    {
      assert k in multiset(listed) && k in multiset(arrival);
    }
    SortedArrangementIsUnique(BySequence(), listed, listed');
  }

  /** Steps of both workflows in one run can tie, and then the listing is open. */
  lemma MixedWorkflowsCanTie()
    ensures Listing([ValidateOrder, CheckCartCheckout], [ValidateOrder, CheckCartCheckout])
    ensures Listing([ValidateOrder, CheckCartCheckout], [CheckCartCheckout, ValidateOrder])
  {
  }
}
