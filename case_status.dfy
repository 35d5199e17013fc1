// Case statuses: the three status badges, the map from backend status
// words to a badge, and the rule that flags an open case older than a day.
module CaseStatus {
  import opened Wrappers
  import opened Strings

  /** `CASE_STATUS[i]`: a badge label and colour. */
  datatype Badge = Badge(statusLabel: string, color: string)

  const CASE_STATUS: seq<Badge> := [
    Badge("Pending", "#fbc02d"),
    Badge("Closed", "#9e9e9e"),
    Badge("Alert", "#d32f2f")
  ]

  /** `ALERT_THRESHOLD` (hours); declared by the source and never read. */
  const ALERT_THRESHOLD := 1

  const DAY_MS: nat := 1000 * 60 * 60 * 24

  /** `STATUS_MAP[key]`: the badge index of a lower-case status word, `undefined` for other words. */
  function StatusIndex(key: string): (r: Option<nat>)
    ensures r.Some? ==> r.value < |CASE_STATUS|
  {
    if key == "pending" || key == "open" || key == "active" then Some(0)
    else if key == "closed" || key == "resolved" || key == "cancelled" then Some(1)
    else if key == "alert" then Some(2)
    else None
  }

  /** `CASE_STATUS[STATUS_MAP[status.toLowerCase()] || 0]`: the badge shown for a status, Pending by default. */
  function BadgeOf(status: string): (b: Badge)
    ensures b in CASE_STATUS
  {
    CASE_STATUS[StatusIndex(Lower(status)).GetOr(0)]
  }

  /** Every badge label maps back to its own badge, whatever its case. */
  lemma BadgeOfLabel(i: nat)
    requires i < |CASE_STATUS|
    ensures BadgeOf(CASE_STATUS[i].statusLabel) == CASE_STATUS[i]
  {
    if i == 0 {
      PendingLabel();
    } else if i == 1 {
      ClosedLabel();
    } else {
      AlertLabel();
    }
  }

  lemma PendingLabel()
    ensures BadgeOf("Pending") == CASE_STATUS[0]
  {
    LowerIs("Pending", "pending");
    assert StatusIndex("pending") == Some(0);
  }

  lemma ClosedLabel()
    ensures BadgeOf("Closed") == CASE_STATUS[1]
  {
    LowerIs("Closed", "closed");
    assert "closed"[0] != "active"[0];
    assert StatusIndex("closed") == Some(1);
  }

  lemma AlertLabel()
    ensures BadgeOf("Alert") == CASE_STATUS[2]
  {
    LowerIs("Alert", "alert");
    assert StatusIndex("alert") == Some(2);
  }

  /** The status words that map to a badge: the three labels and their synonyms. */
  lemma StatusIndexKeys(key: string)
    ensures StatusIndex(key) == Some(0) <==> key in {"pending", "open", "active"}
    ensures StatusIndex(key) == Some(1) <==> key in {"closed", "resolved", "cancelled"}
    ensures StatusIndex(key) == Some(2) <==> key == "alert"
  {
  }

  /** The fields of a case that the alert rule reads; a missing or empty creation time is `None`. */
  datatype CaseItem = CaseItem(status: Option<string>, createdAt: Option<int>)

  /**
   * `shouldCaseBeAlerted`: a case with a creation time that is not closed
   * is alerted once at least one whole day has passed since it was created.
   */
  function ShouldCaseBeAlerted(caseItem: Option<CaseItem>, now: int): (r: bool)
    ensures r ==> caseItem.Some? && caseItem.value.createdAt.Some?
    ensures r ==> caseItem.value.status.None? || Lower(caseItem.value.status.value) != "closed"
  {
    if caseItem.None? || caseItem.value.createdAt.None? then false
    else if caseItem.value.status.Some? && Lower(caseItem.value.status.value) == "closed" then false
    else (now - caseItem.value.createdAt.value) / DAY_MS >= 1
  }

  /** An open case is alerted exactly when it is at least a day old. */
  lemma {:induction false} AlertedIffDayOld(item: CaseItem, now: int)
    requires item.createdAt.Some?
    requires item.status.None? || Lower(item.status.value) != "closed"
    ensures ShouldCaseBeAlerted(Some(item), now) <==> now - item.createdAt.value >= DAY_MS
  {
    var d := now - item.createdAt.value;
    if d >= DAY_MS {
      DivAtLeastOne(d, DAY_MS);
    } else {
      DivBelowOne(d, DAY_MS);
    }
  }

  lemma DivAtLeastOne(a: int, b: nat)
    requires b > 0 && a >= b
    ensures a / b >= 1
  {
  }

  lemma DivBelowOne(a: int, b: nat)
    requires b > 0 && a < b
    ensures a / b < 1
  {
  }

  /** Once alerted, a case stays alerted as time goes on. */
  lemma AlertStaysOn(caseItem: Option<CaseItem>, now: int, later: int)
    requires now <= later && ShouldCaseBeAlerted(caseItem, now)
    ensures ShouldCaseBeAlerted(caseItem, later)
  {
    AlertedIffDayOld(caseItem.value, now);
    AlertedIffDayOld(caseItem.value, later);
  }

  /** A closed case is never alerted, whatever its age. */
  lemma ClosedNeverAlerted(createdAt: Option<int>, status: string, now: int)
    requires Lower(status) == "closed"
    ensures !ShouldCaseBeAlerted(Some(CaseItem(Some(status), createdAt)), now)
  {
  }
}
