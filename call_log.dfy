/** The call-log dialog: saving a call into the store, its counter updates,
    the form reset, and the short list of recent calls. */
module CallLogging {
  import opened Types
  import opened Text
  import opened Store

  /** The counters after a save: addCallLog and the dialog each count the call,
      and an interested outcome is a conversion. */
  function SavedStats(d: DailyStats, outcome: CallOutcome): (r: DailyStats)
    ensures r.callsMade == d.callsMade + 2
    ensures r.conversions == d.conversions + (if outcome == Interested then 1 else 0)
    ensures r.leadsToday == d.leadsToday && r.sitesBuilt == d.sitesBuilt
  {
    var counted := Bump(Bump(d, CallsMade), CallsMade);
    if outcome == Interested then Bump(counted, Conversions) else counted
  }

  /** The log entry a save creates; the follow-up date is kept only when one was entered. */
  function NewLog(business: Business, outcome: CallOutcome, notes: string, followUpDate: string, now: nat): (log: CallLog)
    ensures log.businessId == business.id && log.businessName == business.name
    ensures log.outcome == outcome && log.notes == notes && log.loggedAt == now
    ensures log.followUpDate.Some? <==> followUpDate != ""
    ensures log.followUpDate.Some? ==> log.followUpDate.value == followUpDate
    ensures StartsWith(log.id, "call-")
  {
    CallLog("call-" + NatToDecimal(now), business.id, business.name, outcome, notes,
            if followUpDate != "" then Some(followUpDate) else None, now)
  }

  /** recentCalls: the first three logs, which are the three most recently added. */
  function RecentCalls(logs: seq<CallLog>): (r: seq<CallLog>)
    ensures |r| == if |logs| < 3 then |logs| else 3
    ensures forall i :: 0 <= i < |r| ==> r[i] == logs[i]
  {
    if |logs| < 3 then logs else logs[..3]
  }

  /** A newly added log is the first recent call, and the older ones move down one place. */
  lemma NewLogIsMostRecent(log: CallLog, logs: seq<CallLog>)
    ensures RecentCalls([log] + logs)[0] == log
    ensures forall i :: 1 <= i < |RecentCalls([log] + logs)| ==> RecentCalls([log] + logs)[i] == logs[i - 1]
  {
  }

  /** The dialog's own state. */
  class CallLogDialog {
    var open: bool
    var notes: string
    var followUpDate: string
    var selectedOutcome: Option<CallOutcome>

    constructor ()
      ensures !open && notes == "" && followUpDate == "" && selectedOutcome == None
    {
      open := false;
      notes := "";
      followUpDate := "";
      selectedOutcome := None;
    }

    predicate Cleared()
      reads this
    {
      notes == "" && followUpDate == "" && selectedOutcome == None
    }

    /** handleSave; `now` is the clock reading used for the id and the time stamp. */
    method HandleSave(store: AppStore, business: Option<Business>, now: nat)
      modifies this, store`callLogs, store`dailyStats
      ensures business.None? || old(selectedOutcome).None? ==>
        && store.callLogs == old(store.callLogs) && store.dailyStats == old(store.dailyStats)
        && open == old(open) && notes == old(notes) && followUpDate == old(followUpDate)
        && selectedOutcome == old(selectedOutcome)
      ensures business.Some? && old(selectedOutcome).Some? ==>
        && store.callLogs == [NewLog(business.value, old(selectedOutcome).value, old(notes), old(followUpDate), now)] + old(store.callLogs)
        && store.dailyStats == SavedStats(old(store.dailyStats), old(selectedOutcome).value)
        && Cleared() && !open
    {
      if business.None? || selectedOutcome.None? {
        return;
      }
      var outcome := selectedOutcome.value;
      store.AddCallLog(NewLog(business.value, outcome, notes, followUpDate, now));
      store.IncrementStat(CallsMade);
      if outcome == Interested {
        store.IncrementStat(Conversions);
      }
      notes := "";
      followUpDate := "";
      selectedOutcome := None;
      open := false;
    }

    /** The dialog's open-state handler: closing it also clears the form. */
    method OnOpenChange(o: bool)
      modifies this
      ensures open == o
      ensures !o ==> Cleared()
      ensures o ==> notes == old(notes) && followUpDate == old(followUpDate) && selectedOutcome == old(selectedOutcome)
    {
      open := o;
      if !o {
        selectedOutcome := None;
        notes := "";
        followUpDate := "";
      }
    }
  }
}
