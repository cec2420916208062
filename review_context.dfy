/** The review provider's state: the review being written, whether its dialog is open, and
    the registry of callbacks told about submitted reviews. A callback is known by its
    identity, written here as a number; calling it is recorded in a log of deliveries. */
module ReviewContext {
  import opened Wrappers
  import opened Collections

  datatype Role = Creator | Applicant

  /** The data the review dialog is opened with. */
  datatype ReviewData = ReviewData(taskId: string, userId: string, userName: string, userRole: Role,
                                   chatId: Option<string>)

  /** A registered callback, by identity. */
  type Listener = nat

  /** One call `listener(taskId, reviewerId)`. */
  datatype Delivery = Delivery(listener: Listener, taskId: string, reviewerId: string)

  /** `listeners.filter(listener => listener !== callback)`. */
  function Without(listeners: seq<Listener>, callback: Listener): seq<Listener>
  {
    Filter((l: Listener) => l != callback, listeners)
  }

  /** The calls one notification makes: every listener once, in registration order. */
  function Deliveries(listeners: seq<Listener>, taskId: string, reviewerId: string): seq<Delivery>
  {
    Map((l: Listener) => Delivery(l, taskId, reviewerId), listeners)
  }

  /** The listeners among `listeners` that throw, in call order. */
  function Failed(listeners: seq<Listener>, failing: set<Listener>): seq<Listener>
  {
    Filter((l: Listener) => l in failing, listeners)
  }

  class ReviewProvider {
    var reviewData: Option<ReviewData>
    var isReviewModalOpen: bool
    var listeners: seq<Listener>
    /** Every listener call made so far, oldest first. */
    var delivered: seq<Delivery>

    constructor()
      ensures reviewData.None? && !isReviewModalOpen
      ensures listeners == [] && delivered == []
    {
      reviewData := None;
      isReviewModalOpen := false;
      listeners := [];
      delivered := [];
    }

    /** `openReviewModal(data)`. */
    method OpenReviewModal(data: ReviewData)
      modifies this
      ensures reviewData == Some(data) && isReviewModalOpen
      ensures listeners == old(listeners) && delivered == old(delivered)
    {
      reviewData := Some(data);
      isReviewModalOpen := true;
    }

    /** `closeReviewModal()`: the dialog closes at once; the data stays until the delayed
        reset, which is not part of this model. */
    method CloseReviewModal()
      modifies this
      ensures !isReviewModalOpen
      ensures reviewData == old(reviewData)
      ensures listeners == old(listeners) && delivered == old(delivered)
    {
      isReviewModalOpen := false;
    }

    /** `onReviewSubmitted(callback)`: the callback is appended after the ones already
        registered. */
    method OnReviewSubmitted(callback: Listener)
      modifies this
      ensures listeners == old(listeners) + [callback]
      ensures reviewData == old(reviewData) && isReviewModalOpen == old(isReviewModalOpen)
      ensures delivered == old(delivered)
    {
      listeners := listeners + [callback];
    }

    /** The function `onReviewSubmitted(callback)` returns: it removes every registration of
        the callback. */
    method Unsubscribe(callback: Listener)
      modifies this
      ensures listeners == Without(old(listeners), callback)
      ensures reviewData == old(reviewData) && isReviewModalOpen == old(isReviewModalOpen)
      ensures delivered == old(delivered)
    {
      listeners := Without(listeners, callback);
    }

    /** `notifyReviewSubmitted(taskId, reviewerId)`: the `forEach` that calls every listener in
        turn. A listener in `failing` throws; its error is caught and logged (returned in
        `errors`) and the loop goes on with the next listener. */
    method NotifyReviewSubmitted(taskId: string, reviewerId: string, failing: set<Listener>)
      returns (errors: seq<Listener>)
      modifies this
      ensures delivered == old(delivered) + Deliveries(listeners, taskId, reviewerId)
      ensures errors == Failed(listeners, failing)
      ensures listeners == old(listeners)
      ensures reviewData == old(reviewData) && isReviewModalOpen == old(isReviewModalOpen)
    {
      errors := [];
      var i := 0;
      while i < |listeners|
        invariant 0 <= i <= |listeners|
        invariant listeners == old(listeners)
        invariant reviewData == old(reviewData) && isReviewModalOpen == old(isReviewModalOpen)
        invariant delivered == old(delivered) + Deliveries(listeners[..i], taskId, reviewerId)
        invariant errors == Failed(listeners[..i], failing)
      {
        var listener := listeners[i];
        NotifyStep(listeners, i, taskId, reviewerId, failing);
        delivered := delivered + [Delivery(listener, taskId, reviewerId)];
        if listener in failing {
          errors := errors + [listener];
        }
        i := i + 1;
      }
      assert listeners[..|listeners|] == listeners;
    }
  }

  /** One more listener called: the calls and the errors of a prefix grow by that listener's. */
  lemma NotifyStep(listeners: seq<Listener>, i: nat, taskId: string, reviewerId: string, failing: set<Listener>)
    requires i < |listeners|
    ensures Deliveries(listeners[..i + 1], taskId, reviewerId) ==
      Deliveries(listeners[..i], taskId, reviewerId) + [Delivery(listeners[i], taskId, reviewerId)]
    ensures Failed(listeners[..i + 1], failing) ==
      Failed(listeners[..i], failing) + (if listeners[i] in failing then [listeners[i]] else [])
  {
    assert listeners[..i + 1] == listeners[..i] + [listeners[i]];
    MapConcat((l: Listener) => Delivery(l, taskId, reviewerId), listeners[..i], [listeners[i]]);
    FilterSnoc((l: Listener) => l in failing, listeners[..i], listeners[i]);
  }

  /** Why `useReview` throws. */
  datatype ContextError = OutsideProvider

  /** `useReview()`: the provider's value, or an error when there is no provider above. */
  function UseReview<C>(context: Option<C>): (r: Result<C, ContextError>)
    ensures r.Err? <==> context.None?
    ensures r.Ok? ==> r.value == context.value
  {
    if context.None? then Err(OutsideProvider) else Ok(context.value)
  }

  // ---------------------------------------------------------------------------------------
  // Lemmas

  /** Unsubscribing removes every registration of the callback and keeps all the others, in
      their order; doing it twice is the same as doing it once. */
  lemma WithoutSpec(listeners: seq<Listener>, callback: Listener)
    ensures var r := Without(listeners, callback);
      && callback !in r
      && IsSubsequence(r, listeners)
      && (forall l :: l != callback ==> (l in r <==> l in listeners))
      && (forall l :: l != callback ==> multiset(r)[l] == multiset(listeners)[l])
      && Without(r, callback) == r
  {
    var r := Without(listeners, callback);
    FilterIsSubsequence((l: Listener) => l != callback, listeners);
    FilterKeepsAll((l: Listener) => l != callback, r);
    WithoutCounts(listeners, callback);
  }

  lemma {:induction false} WithoutCounts(listeners: seq<Listener>, callback: Listener)
    ensures forall l :: l != callback ==> multiset(Without(listeners, callback))[l] == multiset(listeners)[l]
    ensures multiset(Without(listeners, callback))[callback] == 0
  {
    if listeners != [] {
      assert listeners == [listeners[0]] + listeners[1..];
      WithoutCounts(listeners[1..], callback);
    }
  }

  /** Unsubscribing one callback does not disturb the others' unsubscribing: the order of two
      removals does not matter. */
  lemma {:induction false} WithoutCommutes(listeners: seq<Listener>, a: Listener, b: Listener)
    ensures Without(Without(listeners, a), b) == Without(Without(listeners, b), a)
  {
    if listeners != [] {
      var x, t := listeners[0], listeners[1..];
      assert listeners == [x] + t;
      WithoutCommutes(t, a, b);
      WithoutCons(x, t, a);
      WithoutCons(x, t, b);
      if x != a && x != b {
        WithoutCons(x, Without(t, a), b);
        WithoutCons(x, Without(t, b), a);
      } else if x == a && x != b {
        assert Without(listeners, a) == Without(t, a);
        WithoutCons(x, Without(t, b), a);
        assert Without(Without(listeners, b), a) == Without(Without(t, b), a);
      } else if x != a && x == b {
        assert Without(listeners, b) == Without(t, b);
        WithoutCons(x, Without(t, a), b);
        assert Without(Without(listeners, a), b) == Without(Without(t, a), b);
      } else {
        assert Without(listeners, a) == Without(t, a);
        assert Without(listeners, b) == Without(t, b);
      }
    }
  }

  lemma WithoutCons(x: Listener, t: seq<Listener>, callback: Listener)
    ensures Without([x] + t, callback) == (if x != callback then [x] else []) + Without(t, callback)
  {
    assert ([x] + t)[0] == x && ([x] + t)[1..] == t;
    if x == callback {
      assert [] + Without(t, callback) == Without(t, callback);
    }
  }

  /** Subscribing and then unsubscribing a new callback restores the registry. */
  lemma SubscribeThenUnsubscribe(listeners: seq<Listener>, callback: Listener)
    requires callback !in listeners
    ensures Without(listeners + [callback], callback) == listeners
  {
    FilterSnoc((l: Listener) => l != callback, listeners, callback);
    FilterKeepsAll((l: Listener) => l != callback, listeners);
  }

  /** A notification calls each registered listener exactly once, in registration order, with
      the review's task and reviewer, whether or not an earlier listener threw. */
  lemma DeliveriesSpec(listeners: seq<Listener>, taskId: string, reviewerId: string)
    ensures var d := Deliveries(listeners, taskId, reviewerId);
      && |d| == |listeners|
      && (forall i :: 0 <= i < |d| ==> d[i] == Delivery(listeners[i], taskId, reviewerId))
      && Map((x: Delivery) => x.listener, d) == listeners
  {
  }

  /** A listener registered twice is called twice; one that was unsubscribed is not called. */
  lemma NotifyAfterUnsubscribe(listeners: seq<Listener>, callback: Listener, taskId: string, reviewerId: string)
    ensures forall x :: x in Deliveries(Without(listeners, callback), taskId, reviewerId) ==> x.listener != callback
  {
    WithoutSpec(listeners, callback);
  }

  /** The whole provider: registering two callbacks, opening and closing the dialog and
      notifying calls both callbacks in order, and after one unsubscribes only the other. */
  method Scenario(data: ReviewData) returns (p: ReviewProvider)
    ensures p.delivered == [Delivery(1, "t", "r"), Delivery(2, "t", "r"), Delivery(2, "t", "r")]
    ensures !p.isReviewModalOpen && p.reviewData == Some(data)
  {
    p := new ReviewProvider();
    p.OnReviewSubmitted(1);
    p.OnReviewSubmitted(2);
    p.OpenReviewModal(data);
    p.CloseReviewModal();
    assert p.listeners == [1, 2];
    var errors := p.NotifyReviewSubmitted("t", "r", {1});
    assert errors == [1] by {
      assert [1, 2][1..] == [2] && [2][1..] == [];
    }
    p.Unsubscribe(1);
    assert p.listeners == [2];
    errors := p.NotifyReviewSubmitted("t", "r", {1});
  }
}
