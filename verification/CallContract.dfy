/** What it means for a call that core accepted every batch started on it. */
module CallContract {
  import opened GrpcCall

  predicate Ends(b: Batch) { Has(b, SendClose) || Has(b, SendStatus) }

  // No two outstanding batches share a kind of operation; a one-shot operation is started at most once.
  ghost predicate Exclusive(c: Call) {
    && (forall a, b, k | a in c.live && b in c.live && a != b :: !(Has(a, k) && Has(b, k)))
    && (forall i, j, k | 0 <= i < j < |c.log| && OneShot(k) :: !(Has(c.log[i], k) && Has(c.log[j], k)))
  }

  // The metadata come first and no message comes after the end.
  ghost predicate LaneOrder(c: Call) {
    && (c.log != [] ==> Has(c.log[0], SendMetadata))
    && (forall i, j | 0 <= i < j < |c.log| :: Ends(c.log[i]) ==> !Has(c.log[j], SendMessage))
  }

  /** The discipline of a call. */
  ghost predicate Orderly(c: Call) { Exclusive(c) && LaneOrder(c) }

  // What is always true of a call: core sees to the first half of the discipline by itself.
  ghost predicate Tidy(c: Call) {
    && Exclusive(c)
    && (c.ordered ==> LaneOrder(c))
    && (forall i, k | 0 <= i < |c.log| && Has(c.log[i], k) :: k in c.used)
    && (c.log == [] ==> c.used == {})
  }

  // Exactly one of the batches has an operation of kind `k`.
  ghost predicate Once(c: Call, k: OpKind) {
    exists i | 0 <= i < |c.log| :: Has(c.log[i], k) && forall j | 0 <= j < |c.log| && j != i :: !Has(c.log[j], k)
  }

  // The first batch asks for the initial metadata of the other end.
  predicate Asked(c: Call) { c.log != [] && Has(c.log[0], RecvMetadata) }

  lemma AskedOnce(c: Call)
    requires Asked(c) && Exclusive(c)
    ensures Once(c, RecvMetadata)
  {
    assert OneShot(RecvMetadata);
  }

  // What starting batches leads to: nothing completes, the call stays tidy, a closed lane stays as it is.
  ghost predicate Grown(c: Call, d: Call) {
    c.live <= d.live && c.log <= d.log && (Tidy(c) ==> Tidy(d)) && (Closed(c) ==> Closed(d) && d.sent == c.sent)
  }

  // Whatever is done to a call keeps it tidy.
  lemma TidyKept()
    ensures Tidy(NewCall)
    ensures forall c, b, payload, status {:trigger Start(c, b, payload, status)} ::
              Grown(c, Start(c, b, payload, status))
    ensures forall c, b {:trigger Completed(c, b)} ::
              (Tidy(c) ==> Tidy(Completed(c, b))) && Completed(c, b).log == c.log
    ensures forall c, v {:trigger Received(c, v)} ::
              (Tidy(c) ==> Tidy(Received(c, v))) && Received(c, v).log == c.log
  {
    forall c, b, payload, status | Tidy(c) ensures Tidy(Start(c, b, payload, status)) {
      var d := Start(c, b, payload, status);
      if Accepts(c, b) {
        assert d.log == c.log + [b] && d.live == c.live + {b};
      }
    }
  }
}
