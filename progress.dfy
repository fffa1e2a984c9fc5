/** The export progress record of engine/src/export/progress.rs, which
    the UI polls while an export runs: progress in percent, running and
    cancelled flags, a status text and an optional error, and the
    `check_cancelled!` guard exports call between steps. The atomics and
    locks are plain fields here. */
module ExportProgress {
  import opened Common

  /** All the polled state (`ExportProgressInfo`). */
  datatype ProgressInfo = ProgressInfo(progress: nat, isRunning: bool, isCancelled: bool,
                                       status: string, error: Option<string>)

  /** `ExportProgressState::new` and the state `reset` restores. */
  const INITIAL: ProgressInfo := ProgressInfo(0, false, false, "", None)

  const COMPLETE_STATUS: string := "Export complete"
  const FAILED_STATUS: string := "Export failed"
  const CANCELLED_BY_USER: string := "Export cancelled by user"
  const CANCELLED: string := "Export cancelled"

  /** The calls that change the record. */
  datatype Op = Start(status: string) | Update(percent: nat, status: string) | Complete | Fail(error: string)
              | Cancel | Reset

  /** The effect of one call. */
  function Apply(s: ProgressInfo, op: Op): (r: ProgressInfo)
    ensures s.progress <= 100 ==> r.progress <= 100
    ensures op.Update? ==> r.progress == if op.percent < 100 then op.percent else 100
    ensures op.Cancel? ==> r == s.(isCancelled := true)
    ensures !op.Cancel? && !op.Start? && !op.Reset? ==> r.isCancelled == s.isCancelled
  {
    match op
    case Start(status) => s.(progress := 0, isRunning := true, isCancelled := false, status := status, error := None)
    case Update(percent, status) => s.(progress := if percent < 100 then percent else 100, status := status)
    case Complete => s.(progress := 100, isRunning := false, status := COMPLETE_STATUS)
    case Fail(error) => s.(isRunning := false, status := FAILED_STATUS, error := Some(error))
    case Cancel => s.(isCancelled := true)
    case Reset => INITIAL
  }

  /** A sequence of calls, in order. */
  function ApplyAll(s: ProgressInfo, ops: seq<Op>): ProgressInfo
  {
    if |ops| == 0 then s else Apply(ApplyAll(s, ops[..|ops| - 1]), ops[|ops| - 1])
  }

  /** Progress never exceeds 100, whatever the calls. */
  lemma {:induction false} ProgressBounded(s: ProgressInfo, ops: seq<Op>)
    requires s.progress <= 100
    ensures ApplyAll(s, ops).progress <= 100
  {
    if |ops| > 0 {
      ProgressBounded(s, ops[..|ops| - 1]);
    }
  }

  predicate Restarts(op: Op)
  {
    op.Start? || op.Reset?
  }

  /** The cancelled flag is set exactly when a cancel came after the last
      start or reset, or it was already set and neither came since. */
  lemma {:induction false} CancelledIff(s: ProgressInfo, ops: seq<Op>)
    ensures ApplyAll(s, ops).isCancelled <==>
      (exists i :: 0 <= i < |ops| && ops[i].Cancel? && forall j :: i < j < |ops| ==> !Restarts(ops[j])) ||
      (s.isCancelled && forall j :: 0 <= j < |ops| ==> !Restarts(ops[j]))
  {
    if |ops| > 0 {
      var n := |ops| - 1;
      var init := ops[..n];
      CancelledIff(s, init);
      assert forall j :: 0 <= j < n ==> init[j] == ops[j];
      if Restarts(ops[n]) {
        assert ApplyAll(s, ops).isCancelled == false;
      } else if !ops[n].Cancel? {
        if exists i :: 0 <= i < |ops| && ops[i].Cancel? && forall j :: i < j < |ops| ==> !Restarts(ops[j]) {
          var i :| 0 <= i < |ops| && ops[i].Cancel? && forall j :: i < j < |ops| ==> !Restarts(ops[j]);
          assert i < n;
          assert forall j :: i < j < n ==> !Restarts(init[j]);
        }
      }
    }
  }

  /** Once cancelled, the flag stays set until the next start or reset. */
  lemma CancelPersists(s: ProgressInfo, before: seq<Op>, after: seq<Op>)
    requires forall j :: 0 <= j < |after| ==> !Restarts(after[j])
    ensures ApplyAll(s, before + [Cancel] + after).isCancelled
  {
    var all := before + [Cancel] + after;
    var i := |before|;
    assert all[i].Cancel?;
    assert forall j :: i < j < |all| ==> all[j] == after[j - i - 1];
    CancelledIff(s, all);
  }

  /** `reset` returns to the initial record from anywhere, and a start
      after it clears the error and the flags. */
  lemma ResetThenStart(s: ProgressInfo, status: string)
    ensures ApplyAll(s, [Reset]) == INITIAL
    ensures ApplyAll(s, [Reset, Start(status)]) == ProgressInfo(0, true, false, status, None)
  {
    assert [Reset, Start(status)][..1] == [Reset];
  }

  class ExportProgressState {
    var progress: nat
    var isRunning: bool
    var isCancelled: bool
    var status: string
    var error: Option<string>

    function Info(): ProgressInfo
      reads this
    {
      ProgressInfo(progress, isRunning, isCancelled, status, error)
    }

    ghost predicate Valid()
      reads this
    {
      progress <= 100
    }

    constructor ()
      ensures Valid() && Info() == INITIAL
    {
      progress := 0;
      isRunning := false;
      isCancelled := false;
      status := "";
      error := None;
    }

    /** `start`: a fresh run with the given status. */
    method Start(text: string)
      requires Valid()
      modifies this
      ensures Valid() && Info() == Apply(old(Info()), Op.Start(text))
      ensures progress == 0 && isRunning && !isCancelled && status == text && error == None
    {
      progress := 0;
      isRunning := true;
      isCancelled := false;
      status := text;
      error := None;
    }

    /** `update`: progress capped at 100, and the status; the flags and
        the error are kept. */
    method Update(percent: nat, text: string)
      requires Valid()
      modifies this
      ensures Valid() && Info() == Apply(old(Info()), Op.Update(percent, text))
      ensures progress == if percent < 100 then percent else 100
      ensures isRunning == old(isRunning) && isCancelled == old(isCancelled) && error == old(error)
    {
      progress := if percent < 100 then percent else 100;
      status := text;
    }

    /** `complete`: 100 percent, stopped; the error is kept. */
    method Complete()
      requires Valid()
      modifies this
      ensures Valid() && Info() == Apply(old(Info()), Op.Complete)
      ensures progress == 100 && !isRunning && status == COMPLETE_STATUS && error == old(error)
    {
      progress := 100;
      isRunning := false;
      status := COMPLETE_STATUS;
    }

    /** `fail`: stopped with the error; the progress is kept. */
    method Fail(message: string)
      requires Valid()
      modifies this
      ensures Valid() && Info() == Apply(old(Info()), Op.Fail(message))
      ensures !isRunning && status == FAILED_STATUS && error == Some(message) && progress == old(progress)
    {
      isRunning := false;
      status := FAILED_STATUS;
      error := Some(message);
    }

    /** `cancel`: only the flag; the export notices at its next check. */
    method Cancel()
      requires Valid()
      modifies this
      ensures Valid() && Info() == Apply(old(Info()), Op.Cancel)
    {
      isCancelled := true;
    }

    /** `reset`: the initial record. */
    method Reset()
      requires Valid()
      modifies this
      ensures Valid() && Info() == Apply(old(Info()), Op.Reset) == INITIAL
    {
      progress := 0;
      isRunning := false;
      isCancelled := false;
      status := "";
      error := None;
    }
  }

  /** `check_cancelled!`: when cancellation was requested the export is
      marked failed ("cancelled by user") and the caller returns an error;
      otherwise nothing happens. */
  method CheckCancelled(p: ExportProgressState) returns (r: Result<(), string>)
    requires p.Valid()
    modifies p
    ensures p.Valid()
    ensures r.Err? <==> old(p.isCancelled)
    ensures r.Err? ==> r.error == CANCELLED && p.Info() == Apply(old(p.Info()), Fail(CANCELLED_BY_USER))
    ensures r.Ok? ==> p.Info() == old(p.Info())
  {
    if p.isCancelled {
      p.Fail(CANCELLED_BY_USER);
      return Err(CANCELLED);
    }
    r := Ok(());
  }
}
