/**
 * Fourth stage (datasaver.go): submit every alarm to the backend once. A failed
 * submission is only logged; the stage passes its input batch on unchanged.
 */
module DataSavers {
  import opened Wrappers
  import opened Alarms
  import opened Handlers

  /**
   * CreateAlarm's verdict on the status it receives (None: the request was not
   * answered): created (201) and already reported (208) are the only successes.
   */
  predicate Saved(status: Option<int>) {
    status == Some(201) || status == Some(208)
  }

  /** The outcome of each submission, one per alarm, in batch order. */
  function SaveOutcomes(alarms: seq<Alarm>, post: Alarm -> Option<int>): (r: seq<bool>)
    ensures |r| == |alarms| && forall k :: 0 <= k < |alarms| ==> r[k] == Saved(post(alarms[k]))
  {
    seq(|alarms|, k requires 0 <= k < |alarms| => Saved(post(alarms[k])))
  }

  /** How many alarms of a batch the backend holds after one pass of the stage. */
  function SavedCount(alarms: seq<Alarm>, post: Alarm -> Option<int>): (n: nat)
    ensures n <= |alarms|
    ensures n == |alarms| <==> forall k :: 0 <= k < |alarms| ==> Saved(post(alarms[k]))
    decreases |alarms|
  {
    if alarms == [] then 0
    else
      var init := alarms[..|alarms| - 1];
      assert forall k :: 0 <= k < |init| ==> init[k] == alarms[k];
      SavedCount(init, post) + (if Saved(post(alarms[|alarms| - 1])) then 1 else 0)
  }

  /**
   * Failures are isolated: when the backend rejects only the alarm at `i`, that alarm's
   * submission is the only failed one and the other |alarms| - 1 are saved.
   */
  lemma {:induction false} OneFailureIsolated(alarms: seq<Alarm>, post: Alarm -> Option<int>, i: nat)
    requires i < |alarms| && !Saved(post(alarms[i]))
    requires forall k :: 0 <= k < |alarms| && k != i ==> Saved(post(alarms[k]))
    ensures forall k :: 0 <= k < |alarms| ==> (SaveOutcomes(alarms, post)[k] <==> k != i)
    ensures SavedCount(alarms, post) == |alarms| - 1
    decreases |alarms|
  {
    var init := alarms[..|alarms| - 1];
    assert forall k :: 0 <= k < |init| ==> init[k] == alarms[k];
    if |alarms| - 1 != i {
      OneFailureIsolated(init, post, i);
    }
  }

  class DataSaver {
    var next: Option<Stage>

    constructor ()
      ensures next == None
    {
      next := None;
    }

    method SetNext(stage: Stage)
      modifies this`next
      ensures next == Some(stage)
    {
      next := Some(stage);
    }

    /**
     * Handle. `post(a)` is the status CreateAlarm receives for alarm `a`, None when the
     * request fails. `outcomes` records each submission's verdict, which Go only logs.
     */
    method Handle(data: Payload, post: Alarm -> Option<int>) returns (r: Result<Payload, string>, outcomes: seq<bool>)
      ensures !data.AlarmList? ==> r.Failure? && outcomes == []
      ensures data.AlarmList? ==> r == Success(data) && outcomes == SaveOutcomes(data.alarms, post)
    {
      if !data.AlarmList? {
        return Failure("DataSaver.Handle: expected []AlarmData"), [];
      }
      var alarms := data.alarms;
      outcomes := [];
      for i := 0 to |alarms|
        invariant outcomes == SaveOutcomes(alarms[..i], post)
      {
        var ok := Saved(post(alarms[i]));
        outcomes := outcomes + [ok];
      }
      assert alarms[..|alarms|] == alarms;
      r := Success(data);
    }
  }
}
