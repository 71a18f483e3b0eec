/**
 * The status heuristic `determine_status` of backend/main.py: a label and a
 * confidence (a percentage) are mapped to one of "threat", "verified" or
 * "analyzing" by a fixed keyword set and two fixed thresholds.
 */
module Status {
  import opened Text

  const Threat: string := "threat"
  const Verified: string := "verified"
  const Analyzing: string := "analyzing"

  /** The keywords of the heuristic (a set in the source; order does not matter). */
  const ThreatKeywords: seq<string> := ["uav", "drone", "unknown", "aircraft"]

  const ThreatThreshold: real := 80.0
  const VerifiedThreshold: real := 85.0

  predicate IsStatus(s: string)
  {
    s == Threat || s == Verified || s == Analyzing
  }

  /** Some keyword occurs, as a substring, in the lower-cased label. */
  predicate HasThreatKeyword(className: string)
  {
    exists kw :: kw in ThreatKeywords && Contains(Lower(className), kw)
  }

  predicate ThreatCondition(confidence: real, className: string)
  {
    HasThreatKeyword(className) && confidence > ThreatThreshold
  }

  function DetermineStatus(confidence: real, className: string): string
  {
    if ThreatCondition(confidence, className) then Threat
    else if confidence > VerifiedThreshold then Verified
    else Analyzing
  }

  /**
   * The heuristic always answers one of the three statuses: "threat" exactly
   * when a keyword matches above 80, otherwise "verified" exactly above 85,
   * and "analyzing" in every remaining case.
   */
  lemma StatusCases(confidence: real, className: string)
    ensures var s := DetermineStatus(confidence, className);
            && IsStatus(s)
            && (s == Threat <==> ThreatCondition(confidence, className))
            && (s == Verified <==> !ThreatCondition(confidence, className) && confidence > VerifiedThreshold)
            && (s == Analyzing <==> !ThreatCondition(confidence, className) && confidence <= VerifiedThreshold)
  {
  }

  /** A label matching a keyword is a threat above 80, also above 85. */
  lemma ThreatWinsOverVerified(confidence: real, className: string)
    requires HasThreatKeyword(className) && confidence > VerifiedThreshold
    ensures DetermineStatus(confidence, className) == Threat
  {
  }

  /** Raising the confidence never demotes a threat and never returns to "analyzing". */
  lemma StatusMonotoneInConfidence(c1: real, c2: real, className: string)
    requires c1 <= c2
    ensures DetermineStatus(c1, className) == Threat ==> DetermineStatus(c2, className) == Threat
    ensures DetermineStatus(c1, className) != Analyzing ==> DetermineStatus(c2, className) != Analyzing
  {
  }

  /** The label is compared case-insensitively. */
  lemma {:induction false} StatusIgnoresCase(confidence: real, className: string)
    ensures DetermineStatus(confidence, Lower(className)) == DetermineStatus(confidence, className)
  {
    LowerIdempotent(className);
  }

  /** Any label whose lower-cased form contains "drone" is a threat above 80. */
  lemma DroneIsThreat(confidence: real, className: string)
    requires Contains(Lower(className), "drone") && confidence > ThreatThreshold
    ensures DetermineStatus(confidence, className) == Threat
  {
    assert "drone" in ThreatKeywords;
  }

  /** "tank" matches no keyword: it is "verified" above 85 and "analyzing" otherwise. */
  lemma TankIsNeverThreat(confidence: real)
    ensures DetermineStatus(confidence, "tank") == if confidence > VerifiedThreshold then Verified else Analyzing
  {
    var low := Lower("tank");
    assert low == "tank";
    forall kw | kw in ThreatKeywords ensures !Contains(low, kw) {
      if kw == "uav" {
        assert low[0..] == "tank" && low[1..] == "ank";
      }
    }
  }
}
