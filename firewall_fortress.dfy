/** Level 6, Firewall Fortress: the player blocks the suspicious ones among
    five traffic rules and applies the configuration once; every rule
    blocked or allowed wrongly costs a point. */
module FirewallFortress {
  import opened Wrappers
  import opened Scoring
  import opened Progress
  import opened Triage

  const LevelId: int := 6

  datatype Risk = High | Medium | Low

  datatype TrafficRule = TrafficRule(
    id: int, trafficType: string, source: string, port: int,
    protocol: string, risk: Risk, shouldBlock: bool)

  const TrafficRules: seq<TrafficRule> := [
    TrafficRule(1, "Web Traffic", "203.0.113.42", 443, "HTTPS", Low, false),
    TrafficRule(2, "Email", "198.51.100.77", 25, "SMTP", Medium, true),
    TrafficRule(3, "File Download", "192.0.2.15", 21, "FTP", High, true),
    TrafficRule(4, "Web Traffic", "203.0.113.54", 80, "HTTP", Medium, true),
    TrafficRule(5, "API Request", "203.0.113.128", 443, "HTTPS", Low, false)
  ]

  /** What the mistake count reads of each rule: its id and `shouldBlock`. */
  function Truths(rules: seq<TrafficRule>): seq<Truth>
  {
    seq(|rules|, i requires 0 <= i < |rules| => Truth(rules[i].id, rules[i].shouldBlock))
  }

  /** The ids and verdicts of the table: 2, 3 and 4 are to be blocked. */
  lemma TableTruths()
    ensures Truths(TrafficRules) ==
      [Truth(1, false), Truth(2, true), Truth(3, true), Truth(4, true), Truth(5, false)]
  {
  }

  /** The points of a configuration: `max(0, 10 - mistakes)`. */
  function Points(blocked: seq<int>): (r: int)
    ensures 5 <= r <= 10
  {
    MistakeScore(Mistakes(Truths(TrafficRules), blocked))
  }

  /** The mistakes of a configuration, rule by rule: blocking 1 or 5 costs
      one each, leaving 2, 3 or 4 open costs one each. */
  lemma MistakesByRule(blocked: seq<int>)
    ensures Mistakes(Truths(TrafficRules), blocked) ==
      (if 1 in blocked then 1 else 0) + (if 2 !in blocked then 1 else 0) +
      (if 3 !in blocked then 1 else 0) + (if 4 !in blocked then 1 else 0) +
      (if 5 in blocked then 1 else 0)
  {
    TableTruths();
    var t := Truths(TrafficRules);
    assert t[1..] == [Truth(2, true), Truth(3, true), Truth(4, true), Truth(5, false)];
    assert t[2..] == [Truth(3, true), Truth(4, true), Truth(5, false)];
    assert t[3..] == [Truth(4, true), Truth(5, false)];
    assert t[4..] == [Truth(5, false)];
    assert Mistakes(t[4..], blocked) == if 5 in blocked then 1 else 0;
    assert Mistakes(t[3..], blocked) == (if 4 !in blocked then 1 else 0) + Mistakes(t[4..], blocked);
    assert Mistakes(t[2..], blocked) == (if 3 !in blocked then 1 else 0) + Mistakes(t[3..], blocked);
    assert Mistakes(t[1..], blocked) == (if 2 !in blocked then 1 else 0) + Mistakes(t[2..], blocked);
  }

  /** Ten points exactly when the blocked ids among the rules' are 2, 3 and
      4. */
  lemma PerfectIffBlocksTwoThreeFour(blocked: seq<int>)
    ensures Points(blocked) == 10 <==> (2 in blocked && 3 in blocked && 4 in blocked && 1 !in blocked && 5 !in blocked)
  {
    MistakesByRule(blocked);
  }

  /** Blocking 2, 3 and 4 and also the harmless rule 1 costs one point. */
  lemma OneFalseBlock()
    ensures Points([2, 3, 4, 1]) == 9
  {
    MistakesByRule([2, 3, 4, 1]);
  }

  /** The page's state and its two handlers. The list of blocked ids never
      holds an id twice. */
  class Session {
    var blockedTraffic: seq<int>
    var completed: bool
    var score: int

    ghost predicate Valid()
      reads this
    {
      NoDuplicates(blockedTraffic) && 0 <= score <= 10
    }

    constructor ()
      ensures Valid()
      ensures blockedTraffic == [] && !completed && score == 0
    {
      blockedTraffic, completed, score := [], false, 0;
    }

    /** `toggleTrafficBlock`. */
    method ToggleBlock(id: int)
      requires Valid()
      modifies this
      ensures Valid()
      ensures blockedTraffic == Toggle(old(blockedTraffic), id)
      ensures completed == old(completed) && score == old(score)
    {
      ToggleKeepsNoDuplicates(blockedTraffic, id);
      blockedTraffic := Toggle(blockedTraffic, id);
    }

    /** `handleSubmit`: the score is set before the session is read; the
        level completes only once the row is saved, otherwise the rules
        stay editable. */
    method Submit(save: SaveOutcome) returns (written: Option<Upsert>)
      requires Valid()
      modifies this
      ensures Valid()
      ensures score == Points(old(blockedTraffic)) && 5 <= score
      ensures written == Sent(save, Upsert(LevelId, score, true, None))
      ensures completed == (old(completed) || save == Saved)
      ensures blockedTraffic == old(blockedTraffic)
    {
      var mistakes := Mistakes(Truths(TrafficRules), blockedTraffic);
      var points := MistakeScore(mistakes);
      score := points;
      if save == NoSession {
        return None;
      }
      written := Some(Upsert(LevelId, points, true, None));
      if save == Failed {
        return;
      }
      completed := true;
    }
  }
}
