/** Which runs of the notifier alert a subscriber, told from the runs themselves instead of from the row it keeps. */
module NotifierHistory {
  import opened Prelude
  import opened Notifier

  const TWELVE_HOURS: real := 12.0 * 3600.0

  lemma LevelsAreOrdered()
    ensures Rank(Normal) < Rank(Advisory) < Rank(Alert) < Rank(Emergency)
  {
  }

  // ---------------------------------------------------------------- the rule

  /** The run found a level below what the subscriber asked to hear about. */
  ghost predicate Below(s: Sub, e: Eval) {
    e.level.Some? && Rank(e.level.value) < Rank(s.minLevel)
  }

  ghost predicate Silent(s: Sub, e: Eval) {
    && s.quiet.Some? && s.quiet.value.Contains(e.minute)
    && !(e.level == Some(Emergency) && s.allowEmergency)
  }

  /** Run k, after run i alerted and less than twelve hours later, found a level below `rank`. */
  ghost predicate FellBelow(evals: seq<Eval>, i: nat, k: nat, rank: int)
    requires i < |evals| && k < |evals|
  {
    evals[k].level.Some? && evals[k].now - evals[i].at < TWELVE_HOURS && Rank(evals[k].level.value) < rank
  }

  /** A level of this rank is news at run j after run i alerted: the alert was for less, or the level fell since. */
  ghost predicate IsNews(evals: seq<Eval>, i: nat, j: nat, rank: int)
    requires i < j <= |evals|
  {
    || (evals[i].level.Some? && Rank(evals[i].level.value) < rank)
    || exists k :: i < k < j && FellBelow(evals, i, k, rank)
  }

  /**
   * Run j is to alert: its level is one to hear about, the hours are not quiet, and of the alert that still stands,
   * if any does, twelve hours have passed or the level is news.
   */
  ghost predicate ToAlert(s: Sub, evals: seq<Eval>, j: nat)
    requires j < |evals|
    decreases j, 0
  {
    && evals[j].level.Some? && !Below(s, evals[j]) && !Silent(s, evals[j])
    && forall i: nat :: i < j && Stands(s, evals, i, j) ==>
         evals[j].now - evals[i].at >= TWELVE_HOURS || IsNews(evals, i, j, Rank(evals[j].level.value))
  }

  ghost predicate Told(s: Sub, evals: seq<Eval>, i: nat)
    requires i < |evals|
    decreases i, 1
  {
    ToAlert(s, evals, i) && evals[i].delivered
  }

  /** The alert of run i is the last one delivered before run j, and no run since found a level below the threshold. */
  ghost predicate Stands(s: Sub, evals: seq<Eval>, i: nat, j: nat)
    requires i < j <= |evals|
    decreases j - 1, 2
  {
    Told(s, evals, i) && forall k: nat :: i < k < j ==> !Told(s, evals, k) && !Below(s, evals[k])
  }

  // ---------------------------------------------------------------- the row remembers just that

  /** level ranks as low as any that counts for news since the alert of run i, and is one of them. */
  ghost predicate Lowest(evals: seq<Eval>, i: nat, j: nat, level: Level)
    requires i < j <= |evals|
  {
    forall rank: int :: IsNews(evals, i, j, rank) <==> Rank(level) < rank
  }

  ghost predicate RowTells(s: Sub, evals: seq<Eval>, j: nat, row: Sub)
    requires j <= |evals|
  {
    && row.minLevel == s.minLevel && row.quiet == s.quiet && row.allowEmergency == s.allowEmergency
    && (if row.lastLevel.None?
        then row.lastAt.None? && forall i: nat :: i < j ==> !Stands(s, evals, i, j)
        else exists i: nat :: RowTellsOf(s, evals, i, j, row))
  }

  /** The row has the time of the alert of run i, which stands, and the lowest level since. */
  ghost predicate RowTellsOf(s: Sub, evals: seq<Eval>, i: nat, j: nat, row: Sub)
    requires j <= |evals|
  {
    && i < j && Stands(s, evals, i, j)
    && row.lastAt == Some(evals[i].at) && row.lastLevel.Some? && Lowest(evals, i, j, row.lastLevel.value)
  }

  lemma OneStands(s: Sub, evals: seq<Eval>, i: nat, i': nat, j: nat)
    requires i < j <= |evals| && i' < j && Stands(s, evals, i, j) && Stands(s, evals, i', j)
    ensures i == i'
  {
  }

  /** The decision read off the row is the rule's. */
  lemma RowDecides(s: Sub, evals: seq<Eval>, j: nat, row: Sub)
    requires j < |evals| && RowTells(s, evals, j, row) && evals[j].level.Some?
    ensures Decide(row, evals[j].level.value, evals[j].now, evals[j].minute) == Notify <==> ToAlert(s, evals, j)
  {
    if row.lastLevel.Some? {
      var i: nat :| RowTellsOf(s, evals, i, j, row);
      var rank := Rank(evals[j].level.value);
      assert IsNews(evals, i, j, rank) <==> Rank(row.lastLevel.value) < rank;
      forall i': nat | i' < j && Stands(s, evals, i', j)
        ensures i' == i
      {
        OneStands(s, evals, i, i', j);
      }
    }
  }

  lemma StandsLonger(s: Sub, evals: seq<Eval>, i: nat, j: nat)
    requires i < j < |evals|
    ensures Stands(s, evals, i, j + 1) <==> Stands(s, evals, i, j) && !Told(s, evals, j) && !Below(s, evals[j])
  {
  }

  lemma NewsLonger(evals: seq<Eval>, i: nat, j: nat, rank: int)
    requires i < j < |evals|
    ensures IsNews(evals, i, j + 1, rank) <==> IsNews(evals, i, j, rank) || FellBelow(evals, i, j, rank)
  {
  }

  /** A run that alerts: its alert stands, and its level is the lowest since. */
  lemma AlertIsTold(s: Sub, evals: seq<Eval>, j: nat, row: Sub)
    requires j < |evals| && RowTells(s, evals, j, row) && Alerts(row, evals[j])
    ensures RowTells(s, evals, j + 1, After(row, evals[j]))
  {
    RowDecides(s, evals, j, row);
    assert Stands(s, evals, j, j + 1);
    assert Lowest(evals, j, j + 1, evals[j].level.value);
    assert RowTellsOf(s, evals, j, j + 1, After(row, evals[j]));
  }

  /** A run below the threshold: nothing stands any more. */
  lemma FallIsTold(s: Sub, evals: seq<Eval>, j: nat, row: Sub)
    requires j < |evals| && RowTells(s, evals, j, row) && Below(s, evals[j])
    ensures RowTells(s, evals, j + 1, After(row, evals[j]))
  {
    var next := j + 1;
    assert !Told(s, evals, j);
    forall i: nat | i < next
      ensures !Stands(s, evals, i, next)
    {
      if i < j {
        StandsLonger(s, evals, i, j);
      }
    }
  }

  /** Any other run: what stood stands, and its level counts if it is lower and within twelve hours. */
  lemma OtherRunIsTold(s: Sub, evals: seq<Eval>, j: nat, row: Sub)
    requires j < |evals| && RowTells(s, evals, j, row) && !Alerts(row, evals[j]) && !Below(s, evals[j])
    ensures RowTells(s, evals, j + 1, After(row, evals[j]))
  {
    var row' := After(row, evals[j]);
    if evals[j].level.Some? {
      RowDecides(s, evals, j, row);
    }
    assert !Told(s, evals, j);
    if row.lastLevel.None? {
      var next := j + 1;
      forall i: nat | i < next
        ensures !Stands(s, evals, i, next)
      {
        if i < j {
          StandsLonger(s, evals, i, j);
        }
      }
    } else {
      var i: nat :| RowTellsOf(s, evals, i, j, row);
      StandsLonger(s, evals, i, j);
      LowestLonger(evals, i, j, row, row');
      assert RowTellsOf(s, evals, i, j + 1, row');
    }
  }

  lemma LowestLonger(evals: seq<Eval>, i: nat, j: nat, row: Sub, row': Sub)
    requires i < j < |evals| && row.lastLevel.Some? && row.lastAt == Some(evals[i].at)
    requires Lowest(evals, i, j, row.lastLevel.value) && !Alerts(row, evals[j]) && row' == After(row, evals[j])
    requires evals[j].level.Some? ==> Rank(evals[j].level.value) >= Rank(row.minLevel)
    ensures row'.lastLevel.Some? && row'.lastAt == row.lastAt && Lowest(evals, i, j + 1, row'.lastLevel.value)
  {
    var next := j + 1;
    forall rank: int
      ensures IsNews(evals, i, next, rank) <==> Rank(row'.lastLevel.value) < rank
    {
      NewsLonger(evals, i, j, rank);
      assert IsNews(evals, i, j, rank) <==> Rank(row.lastLevel.value) < rank;
    }
  }

  lemma {:induction false} RowTellsHistory(s: Sub, evals: seq<Eval>, j: nat)
    requires j <= |evals| && s.lastLevel.None? && s.lastAt.None?
    ensures RowTells(s, evals, j, AfterAll(s, evals[..j]))
  {
    if j > 0 {
      RowTellsHistory(s, evals, j - 1);
      OneMore(s, evals, j - 1);
      var row := AfterAll(s, evals[..j - 1]);
      if Alerts(row, evals[j - 1]) {
        AlertIsTold(s, evals, j - 1, row);
      } else if Below(s, evals[j - 1]) {
        FallIsTold(s, evals, j - 1, row);
      } else {
        OtherRunIsTold(s, evals, j - 1, row);
      }
    }
  }

  /**
   * From a new subscription on, a run decides to alert exactly when its level is one to hear about, the hours are
   * not quiet, and one of these holds: no alert has been delivered since the last run below the threshold; twelve
   * hours have passed since the last one; or the level is above that alert's, or above one found since, within
   * twelve hours of it. It then alerts exactly if a device takes the message.
   */
  lemma AlertsIff(s: Sub, evals: seq<Eval>, j: nat)
    requires j < |evals| && s.lastLevel.None? && s.lastAt.None?
    ensures evals[j].level.Some? ==>
              (Decide(AfterAll(s, evals[..j]), evals[j].level.value, evals[j].now, evals[j].minute) == Notify <==>
               ToAlert(s, evals, j))
    ensures AlertsAt(s, evals, j) <==> Told(s, evals, j)
  {
    RowTellsHistory(s, evals, j);
    if evals[j].level.Some? {
      RowDecides(s, evals, j, AfterAll(s, evals[..j]));
    }
  }

  /** A level that falls below the threshold and comes back is announced again, however soon. */
  lemma ReturnIsAnnounced(s: Sub, evals: seq<Eval>, fall: nat, j: nat)
    requires fall < j < |evals| && s.lastLevel.None? && s.lastAt.None? && Below(s, evals[fall])
    requires forall k :: fall < k < j ==> !AlertsAt(s, evals, k)
    requires evals[j].level.Some? && !Below(s, evals[j]) && !Silent(s, evals[j]) && evals[j].delivered
    ensures AlertsAt(s, evals, j)
  {
    AlertsIff(s, evals, j);
    assert !Told(s, evals, fall);
    forall i: nat | i < j
      ensures !Stands(s, evals, i, j)
    {
      if i > fall {
        AlertsIff(s, evals, i);
      }
    }
  }
}
