/** Facts about finite sets that loops over a map's keys rely on. */
module Sets {

  /** A set other than the empty one has a member to pick. */
  lemma NonEmpty(s: set<int>)
    requires s != {}
    ensures exists x :: x in s
  {
    if forall x :: x !in s {
      assert false;
    }
  }
}
