/**
 * The failover loop of `KMSClient.getKeyList` (lines 154-304): how each
 * endpoint's outcome is classified, and how the `finally` block's
 * `continue` (lines 298-300) decides between returning, trying the next
 * endpoint and letting an exception escape.
 */
module KmsFailover {
  import opened Wrappers
  import opened KmsKeys

  /** Which `HadoopException` was raised. */
  datatype HadoopCause =
    | ConfigMapEmpty                       // getKmsClient, lines 341-347
    | KmsClientNull                        // getKmsKey, lines 370-377
    | AccessDenied(status: int, body: string)  // 401 or 403, lines 238-257; the message is the response body
    | NullResponse                         // no response object, lines 266-276
    | CallException                        // any other throwable in the call, lines 280-288
    | ProviderFailure                      // getKmsKey wrapping another exception, lines 393-400

  datatype JavaException =
    | HadoopException(cause: HadoopCause)
    | NullPointerException                 // `new URI(null)` for a missing provider

  /** How a Java call completes: with a value, or by throwing. */
  datatype Completion<+T> = Normal(value: T) | Abrupt(exception: JavaException)

  /** What Gson makes of a 200 body read as `List`. */
  datatype JsonBody =
    | JsonNull                    // the body parses to null
    | JsonStrings(items: seq<string>)  // an array of strings
    | JsonInvalid                 // not JSON, or not an array of strings: parsing or the cast throws

  /** What one endpoint's authenticated GET delivers. */
  datatype Attempt =
    | CallFailed        // a throwable before a response: login, password decryption, transport, ...
    | NoResponse        // `Subject.doAs` returned null
    | Responded(status: int, entity: string, json: JsonBody)

  /** The state one iteration leaves behind, before the `finally` block runs. */
  datatype Step =
    | Found(keys: seq<string>)   // `return lret` with the filtered names
    | EmptyBody                  // 200 whose body is null: `lret` stays an empty list
    | NoList                     // other status: `lret = null`, nothing thrown
    | Raise(exception: JavaException)  // `lret = null` and a `HadoopException` is pending

  /** A 200 whose body is an array of strings: the only outcome that returns at once. */
  predicate Delivers(a: Attempt) {
    a.Responded? && a.status == 200 && a.json.JsonStrings?
  }

  /** Lines 208-288. */
  function Classify(a: Attempt, keyNameMatching: Option<string>, existingKeyList: Option<seq<string>>): (r: Step)
    ensures r.Found? <==> Delivers(a)
    ensures r.Raise? ==>
      && r.exception.HadoopException?
      && (r.exception.cause.AccessDenied? || r.exception.cause == NullResponse || r.exception.cause == CallException)
  {
    match a
    case CallFailed => Raise(HadoopException(CallException))
    case NoResponse => Raise(HadoopException(NullResponse))
    case Responded(status, entity, json) =>
      if status == 200 then
        match json
        case JsonStrings(keys) => Found(FilterKeys(keys, keyNameMatching, existingKeyList))
        case JsonNull => EmptyBody
        case JsonInvalid => Raise(HadoopException(CallException))
      else if status == 401 || status == 403 then Raise(HadoopException(AccessDenied(status, entity)))
      else NoList
  }

  /**
   * The loop from endpoint `i` on, with `lret` the list variable's value:
   * Java's `continue` in `finally` discards a pending exception on every
   * endpoint but the last, and a loop that runs out returns `lret`.
   */
  function Run(atts: seq<Attempt>, keyNameMatching: Option<string>, existingKeyList: Option<seq<string>>,
               i: nat, lret: Option<seq<string>>): (r: Completion<Option<seq<string>>>)
    requires i <= |atts|
    ensures r.Abrupt? ==> i < |atts| && Classify(atts[|atts| - 1], keyNameMatching, existingKeyList) == Raise(r.exception)
    decreases |atts| - i
  {
    if i == |atts| then Normal(lret)
    else
      match Classify(atts[i], keyNameMatching, existingKeyList)
      case Found(keys) => Normal(Some(keys))
      case EmptyBody => Run(atts, keyNameMatching, existingKeyList, i + 1, Some([]))
      case NoList => Run(atts, keyNameMatching, existingKeyList, i + 1, None)
      case Raise(e) =>
        if i == |atts| - 1 then Abrupt(e) else Run(atts, keyNameMatching, existingKeyList, i + 1, None)
  }

  /** The loop from the first endpoint, with `lret` still null. */
  function Failover(atts: seq<Attempt>, keyNameMatching: Option<string>, existingKeyList: Option<seq<string>>)
    : (r: Completion<Option<seq<string>>>)
    ensures r.Abrupt? ==> |atts| > 0 && Classify(atts[|atts| - 1], keyNameMatching, existingKeyList) == Raise(r.exception)
  {
    Run(atts, keyNameMatching, existingKeyList, 0, None)
  }

  /**
   * What the `try` block of one iteration leaves behind for `finally`, given
   * how its endpoint was classified: the value of `lret` and the pending
   * exception.
   */
  predicate Leaves(step: Step, lret: Option<seq<string>>, pending: Option<JavaException>) {
    match step
    case Found(keys) => lret == Some(keys) && pending.None?
    case EmptyBody => lret == Some([]) && pending.None?
    case NoList => lret.None? && pending.None?
    case Raise(e) => lret.None? && pending == Some(e)
  }

  /**
   * An iteration as the `finally` block ends it: a delivered list is
   * returned; a pending exception escapes from the last endpoint only;
   * otherwise the loop goes on with `lret` as the body left it.
   */
  lemma RunPassesOn(atts: seq<Attempt>, keyNameMatching: Option<string>, existingKeyList: Option<seq<string>>,
                    i: nat, lret: Option<seq<string>>, next: Option<seq<string>>, pending: Option<JavaException>)
    requires i < |atts|
    requires Leaves(Classify(atts[i], keyNameMatching, existingKeyList), next, pending)
    ensures Delivers(atts[i]) ==> Run(atts, keyNameMatching, existingKeyList, i, lret) == Normal(next)
    ensures !Delivers(atts[i]) && pending.Some? && i == |atts| - 1 ==>
      Run(atts, keyNameMatching, existingKeyList, i, lret) == Abrupt(pending.value)
    ensures !Delivers(atts[i]) && !(pending.Some? && i == |atts| - 1) ==>
      Run(atts, keyNameMatching, existingKeyList, i, lret) == Run(atts, keyNameMatching, existingKeyList, i + 1, next)
  {
  }

  /** The first endpoint at or after `i` that delivers a list. */
  function FirstDelivering(atts: seq<Attempt>, i: nat): (r: Option<nat>)
    requires i <= |atts|
    ensures r.Some? ==> i <= r.value < |atts| && Delivers(atts[r.value])
    ensures r.Some? ==> forall k :: i <= k < r.value ==> !Delivers(atts[k])
    ensures r.None? ==> forall k :: i <= k < |atts| ==> !Delivers(atts[k])
    decreases |atts| - i
  {
    if i == |atts| then None
    else if Delivers(atts[i]) then Some(i)
    else FirstDelivering(atts, i + 1)
  }

  /** How the call ends when the loop leaves the last endpoint without having returned. */
  function Exhausted(last: Step): Completion<Option<seq<string>>> {
    match last
    case Found(keys) => Normal(Some(keys))
    case EmptyBody => Normal(Some([]))
    case NoList => Normal(None)
    case Raise(e) => Abrupt(e)
  }

  /**
   * An independent statement of the failover policy: the first endpoint that
   * delivers a list decides; when none does, only the last endpoint's
   * outcome matters; without endpoints the result is null.
   */
  function Reference(atts: seq<Attempt>, keyNameMatching: Option<string>, existingKeyList: Option<seq<string>>)
    : (r: Completion<Option<seq<string>>>)
    ensures (exists k :: 0 <= k < |atts| && Delivers(atts[k])) ==> r.Normal? && r.value.Some?
  {
    if |atts| == 0 then Normal(None)
    else
      match FirstDelivering(atts, 0)
      case Some(j) => Normal(Some(FilterKeys(atts[j].json.items, keyNameMatching, existingKeyList)))
      case None => Exhausted(Classify(atts[|atts| - 1], keyNameMatching, existingKeyList))
  }

  /** How many endpoints the loop enters. */
  function Tried(atts: seq<Attempt>): (n: nat)
    ensures n <= |atts|
  {
    match FirstDelivering(atts, 0)
    case Some(j) => j + 1
    case None => |atts|
  }

  /**
   * The count of entered endpoints, seen from endpoint `i` when no earlier
   * endpoint delivered: `i + 1` if `i` delivers, all of them if the last
   * one does not; otherwise the search goes on at `i + 1`.
   */
  lemma TriedFrom(atts: seq<Attempt>, i: nat)
    requires i < |atts| && FirstDelivering(atts, 0) == FirstDelivering(atts, i)
    ensures Delivers(atts[i]) ==> Tried(atts) == i + 1
    ensures !Delivers(atts[i]) ==> FirstDelivering(atts, 0) == FirstDelivering(atts, i + 1)
    ensures !Delivers(atts[i]) && i == |atts| - 1 ==> Tried(atts) == |atts|
  {
  }

  lemma {:induction false} RunFromMatchesReference(atts: seq<Attempt>, keyNameMatching: Option<string>,
                                                   existingKeyList: Option<seq<string>>, i: nat,
                                                   lret: Option<seq<string>>)
    requires i < |atts|
    ensures Run(atts, keyNameMatching, existingKeyList, i, lret)
         == match FirstDelivering(atts, i)
            case Some(j) => Normal(Some(FilterKeys(atts[j].json.items, keyNameMatching, existingKeyList)))
            case None => Exhausted(Classify(atts[|atts| - 1], keyNameMatching, existingKeyList))
    decreases |atts| - i
  {
    var step := Classify(atts[i], keyNameMatching, existingKeyList);
    if !step.Found? && i < |atts| - 1 {
      var next := if step.EmptyBody? then Some([]) else None;
      RunFromMatchesReference(atts, keyNameMatching, existingKeyList, i + 1, next);
    }
  }

  /** The loop as the source writes it implements the reference policy. */
  lemma FailoverMatchesReference(atts: seq<Attempt>, keyNameMatching: Option<string>,
                                 existingKeyList: Option<seq<string>>)
    ensures Failover(atts, keyNameMatching, existingKeyList) == Reference(atts, keyNameMatching, existingKeyList)
  {
    if |atts| > 0 {
      RunFromMatchesReference(atts, keyNameMatching, existingKeyList, 0, None);
    }
  }

  /**
   * A 200 with a list returns that list, filtered, when no earlier endpoint
   * delivered one; no later endpoint is tried.
   */
  lemma DeliveryEndsFailover(atts: seq<Attempt>, keyNameMatching: Option<string>,
                             existingKeyList: Option<seq<string>>, j: nat)
    requires j < |atts| && Delivers(atts[j])
    requires forall k :: 0 <= k < j ==> !Delivers(atts[k])
    ensures Failover(atts, keyNameMatching, existingKeyList)
         == Normal(Some(FilterKeys(atts[j].json.items, keyNameMatching, existingKeyList)))
    ensures Tried(atts) == j + 1
  {
    FailoverMatchesReference(atts, keyNameMatching, existingKeyList);
  }

  lemma {:induction false} RunShift(atts: seq<Attempt>, keyNameMatching: Option<string>,
                                    existingKeyList: Option<seq<string>>, i: nat, lret: Option<seq<string>>)
    requires 0 < |atts| && i < |atts|
    ensures Run(atts, keyNameMatching, existingKeyList, i + 1, lret)
         == Run(atts[1..], keyNameMatching, existingKeyList, i, lret)
    decreases |atts| - i
  {
    if i + 1 < |atts| {
      assert atts[1..][i] == atts[i + 1];
      var step := Classify(atts[i + 1], keyNameMatching, existingKeyList);
      if !step.Found? && i + 1 < |atts| - 1 {
        var next := if step.EmptyBody? then Some([]) else None;
        RunShift(atts, keyNameMatching, existingKeyList, i + 1, next);
      }
    }
  }

  /**
   * On an endpoint that is not the last, every outcome but a delivered list
   * (401, 403, another status, no response, an exception, a null body)
   * leads to the next endpoint, as if the first had not been there.
   */
  lemma FailureOnEarlierEndpointTriesNext(atts: seq<Attempt>, keyNameMatching: Option<string>,
                                          existingKeyList: Option<seq<string>>)
    requires |atts| >= 2 && !Delivers(atts[0])
    ensures Failover(atts, keyNameMatching, existingKeyList) == Failover(atts[1..], keyNameMatching, existingKeyList)
  {
    var step := Classify(atts[0], keyNameMatching, existingKeyList);
    var next := if step.EmptyBody? then Some([]) else None;
    RunShift(atts, keyNameMatching, existingKeyList, 0, next);
    RunFromMatchesReference(atts[1..], keyNameMatching, existingKeyList, 0, next);
    RunFromMatchesReference(atts[1..], keyNameMatching, existingKeyList, 0, None);
  }

  /** An exception escapes exactly when no endpoint delivers a list and the last one raised it. */
  lemma AbruptOnlyFromLastEndpoint(atts: seq<Attempt>, keyNameMatching: Option<string>,
                                   existingKeyList: Option<seq<string>>, e: JavaException)
    ensures Failover(atts, keyNameMatching, existingKeyList) == Abrupt(e)
        <==> && |atts| > 0
             && (forall k :: 0 <= k < |atts| ==> !Delivers(atts[k]))
             && Classify(atts[|atts| - 1], keyNameMatching, existingKeyList) == Raise(e)
  {
    FailoverMatchesReference(atts, keyNameMatching, existingKeyList);
    if |atts| > 0 && (forall k :: 0 <= k < |atts| ==> !Delivers(atts[k])) {
      assert FirstDelivering(atts, 0).None?;
    }
  }

  /** When no endpoint delivers a list, the last endpoint's outcome decides the result. */
  lemma ExhaustedEndpoints(atts: seq<Attempt>, keyNameMatching: Option<string>,
                           existingKeyList: Option<seq<string>>)
    requires |atts| > 0 && forall k :: 0 <= k < |atts| ==> !Delivers(atts[k])
    ensures var last := atts[|atts| - 1];
      var r := Failover(atts, keyNameMatching, existingKeyList);
      && (last.Responded? && last.status == 200 && last.json.JsonNull? ==> r == Normal(Some([])))
      && (last.Responded? && last.status == 200 && last.json.JsonInvalid? ==> r == Abrupt(HadoopException(CallException)))
      && (last.Responded? && last.status !in {200, 401, 403} ==> r == Normal(None))
      && (last.Responded? && last.status in {401, 403} ==>
            r == Abrupt(HadoopException(AccessDenied(last.status, last.entity))))
      && (last.NoResponse? ==> r == Abrupt(HadoopException(NullResponse)))
      && (last.CallFailed? ==> r == Abrupt(HadoopException(CallException)))
      && Tried(atts) == |atts|
  {
    FailoverMatchesReference(atts, keyNameMatching, existingKeyList);
    assert FirstDelivering(atts, 0).None?;
  }

  /** Endpoints that all answer with another status end the call with null and no exception. */
  lemma AllOtherStatusesGiveNull(atts: seq<Attempt>, keyNameMatching: Option<string>,
                                 existingKeyList: Option<seq<string>>)
    requires forall k :: 0 <= k < |atts| ==> atts[k].Responded? && atts[k].status !in {200, 401, 403}
    ensures Failover(atts, keyNameMatching, existingKeyList) == Normal(None)
  {
    if |atts| > 0 {
      ExhaustedEndpoints(atts, keyNameMatching, existingKeyList);
    }
  }

  /** A 401 from the first of two endpoints is discarded: the second endpoint's list is returned. */
  lemma EarlierAccessDeniedIsDiscarded(body: string, keys: seq<string>)
    ensures Failover([Responded(401, body, JsonNull), Responded(200, "", JsonStrings(keys))], None, None)
         == Normal(Some(keys))
  {
    var atts := [Responded(401, body, JsonNull), Responded(200, "", JsonStrings(keys))];
    FailureOnEarlierEndpointTriesNext(atts, None, None);
    assert atts[1..] == [atts[1]];
    DeliveryEndsFailover(atts[1..], None, None, 0);
    NoCriteriaKeepsAll(keys, None);
  }
}
