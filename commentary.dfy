/// Narrative repair: the roast battle the narrator writes is forced into
/// alternating, numbered rounds with clamped damage, and a fixed six-round
/// battle stands in whenever the narrator is unavailable or its reply unusable.
module Commentary {
  import opened Wrappers
  import opened Strings
  import opened Json
  import opened Types

  function Min(a: int, b: int): int { if a <= b then a else b }
  function Max(a: int, b: int): int { if a >= b then a else b }

  /** The attacker a round must have at position `idx`. */
  function ExpectedAttacker(idx: nat): string {
    if idx % 2 == 0 then "profile1" else "profile2"
  }

  /**
   * `Math.max(30, Math.min(95, damage || 60))`: a missing or falsy damage is
   * read as 60, the rest is converted to a number and clamped to 30..95; a
   * value that does not convert stays NaN.
   */
  function ClampDamage(d: Value): (r: Value)
    ensures r.NaN? || (r.Num? && 30 <= r.n <= 95)
    ensures !Truthy(d) ==> r == Num(60)
    ensures d.Num? && d.n != 0 ==> r == Num(Max(30, Min(95, d.n)))
  {
    var x := if Truthy(d) then d else Num(60);
    match ToNumber(x)
    case Num(n) => Num(Max(30, Min(95, n)))
    case _ => NaN
  }

  /**
   * `{...round}` for one element of the rounds array: an object's own fields;
   * any other value contributes no field.
   */
  function Spread(round: Value): Record {
    FieldsOf(round)
  }

  /** The repaired round at position `idx`. */
  function RepairRound(round: Value, idx: nat): Record {
    var fields := Spread(round);
    fields["roundNumber" := Num(idx + 1)]["attacker" := Str(ExpectedAttacker(idx))]
      ["damage" := ClampDamage(Get(fields, "damage"))]
  }

  /** The keys the repair rewrites. */
  predicate Rewritten(k: string) {
    k == "roundNumber" || k == "attacker" || k == "damage"
  }

  /** `rounds.map((round, idx) => ({...round, roundNumber, attacker, damage}))`. */
  function EnforceAlternation(rounds: seq<Value>): (r: seq<Record>)
    ensures |r| == |rounds|
  {
    seq(|rounds|, i requires 0 <= i < |rounds| => RepairRound(rounds[i], i))
  }

  /**
   * Whatever the input: the same number of rounds, attackers alternating from
   * 'profile1', numbered from 1, damage in 30..95 unless it does not convert,
   * and every other field copied unchanged.
   */
  lemma EnforceAlternationShape(rounds: seq<Value>)
    ensures var r := EnforceAlternation(rounds);
      |r| == |rounds|
      && (forall i :: 0 <= i < |r| ==> Get(r[i], "attacker") == Str(ExpectedAttacker(i)))
      && (forall i :: 0 <= i < |r| ==> Get(r[i], "roundNumber") == Num(i + 1))
      && (forall i :: 0 <= i < |r| ==>
           var d := Get(r[i], "damage"); d.NaN? || (d.Num? && 30 <= d.n <= 95))
      && (forall i, k :: 0 <= i < |r| && !Rewritten(k) ==>
           (k in r[i] <==> k in Spread(rounds[i])) && Get(r[i], k) == Get(Spread(rounds[i]), k))
  {
  }

  /** The repaired rounds as array elements. */
  function AsValues(rs: seq<Record>): (vs: seq<Value>)
    ensures |vs| == |rs|
    ensures forall i :: 0 <= i < |rs| ==> vs[i] == Obj(rs[i])
  {
    seq(|rs|, i requires 0 <= i < |rs| => Obj(rs[i]))
  }

  /** A second repair changes nothing, as long as no damage came out NaN. */
  lemma EnforceAlternationIdempotent(rounds: seq<Value>)
    requires forall i :: 0 <= i < |rounds| ==> !ClampDamage(Get(Spread(rounds[i]), "damage")).NaN?
    ensures EnforceAlternation(AsValues(EnforceAlternation(rounds))) == EnforceAlternation(rounds)
  {
    var once := EnforceAlternation(rounds);
    var twice := EnforceAlternation(AsValues(once));
    forall i | 0 <= i < |rounds|
      ensures twice[i] == once[i]
    {
      var d := Get(once[i], "damage");
      assert d.Num? && 30 <= d.n <= 95;
      assert ClampDamage(d) == d;
      assert twice[i] == RepairRound(Obj(once[i]), i);
    }
  }

  /** A damage that does not convert to a number breaks idempotence: NaN is then read as 60. */
  lemma NaNDamageIsNotIdempotent()
    ensures var once := EnforceAlternation([Obj(map["damage" := Str("x")])]);
      Get(once[0], "damage") == NaN
      && Get(EnforceAlternation(AsValues(once))[0], "damage") == Num(60)
  {
    assert TrimStart("x") == "x";
    assert TrimEnd("x") == "x";
    assert DigitRun("x") == 0;
    assert ParseNumber("x") == NaN;
    assert ClampDamage(Str("x")) == NaN;
    var once := EnforceAlternation([Obj(map["damage" := Str("x")])]);
    assert once[0] == RepairRound(Obj(map["damage" := Str("x")]), 0);
    assert Get(once[0], "damage") == NaN;
    assert ClampDamage(NaN) == Num(60);
  }

  /** The shape of a round that the repair leaves as it is. */
  predicate WellFormedRound(round: Value, idx: nat) {
    round.Obj?
    && Get(round.fields, "attacker") == Str(ExpectedAttacker(idx))
    && Get(round.fields, "roundNumber") == Num(idx + 1)
    && Get(round.fields, "damage").Num? && 30 <= Get(round.fields, "damage").n <= 95
  }

  /** Rounds that already alternate, are numbered and carry damage in 30..95 come back unchanged. */
  lemma WellFormedRoundsUnchanged(rounds: seq<Value>)
    requires forall i :: 0 <= i < |rounds| ==> WellFormedRound(rounds[i], i)
    ensures EnforceAlternation(rounds) == seq(|rounds|, i requires 0 <= i < |rounds| => FieldsOf(rounds[i]))
  {
    forall i | 0 <= i < |rounds|
      ensures EnforceAlternation(rounds)[i] == rounds[i].fields
    {
      var f := rounds[i].fields;
      assert RepairRound(rounds[i], i) == f;
    }
  }

  // ---------------------------------------------------------------------------
  // The fallback battle

  /** The damage of each fallback round. */
  const FallbackDamages: seq<int> := [65, 70, 75, 80, 85, 70]

  /** The roast of fallback round `i + 1`, between `n1` (profile1) and `n2` (profile2). */
  function FallbackRoast(i: nat, n1: string, n2: string): string {
    if i == 0 then "Hey " + n2 + ", I saw your resume. It reads like a LinkedIn buzzword bingo card that nobody won."
    else if i == 1 then "That's rich coming from someone whose greatest achievement is being \"proficient in Microsoft Office.\" Welcome to 2026, " + n1 + "."
    else if i == 2 then "At least I have achievements. Your LinkedIn says \"Thought Leader\" but your last post was sharing a motivational quote from 2019."
    else if i == 3 then "You call yourself a tech expert but your GitHub has more forks than original code. Even your commits are copy-paste."
    else if i == 4 then "Bold words from someone who lists \"synergy\" as a skill. The only thing you've disrupted is the coffee machine at your coworking space."
    else "Nice try, but your career trajectory looks like a stock chart from 2008. At least my failures are in private repos."
  }

  /** The reaction that closes fallback round `i + 1`. */
  function FallbackReaction(i: nat, n1: string, n2: string): string {
    if i == 0 then n2 + " forces an awkward smile."
    else if i == 1 then n1 + " clutches their chest dramatically."
    else if i == 2 then n2 + " nervously checks their phone."
    else if i == 3 then n1 + " looks visibly shaken."
    else if i == 4 then "The crowd goes wild. " + n2 + " is stunned."
    else n1 + " takes a deep breath, knowing that one stung."
  }

  /** Fallback round `i + 1` as the object the narrator would have written. */
  function FallbackRound(i: nat, n1: string, n2: string): Value
    requires i < 6
  {
    RoundObject(i, FallbackRoast(i, n1, n2), FallbackReaction(i, n1, n2))
  }

  /** Round `i + 1` with the given roast and reaction and its fixed damage. */
  function RoundObject(i: nat, roast: string, reaction: string): Value
    requires i < 6
  {
    Obj(map["roundNumber" := Num(i + 1), "attacker" := Str(ExpectedAttacker(i)),
            "roast" := Str(roast), "damage" := Num(FallbackDamages[i]),
            "reaction" := Str(reaction)])
  }

  /** The six fallback rounds. */
  function FallbackRounds(n1: string, n2: string): (r: seq<Value>)
    ensures |r| == 6
  {
    seq(6, i requires 0 <= i < 6 => FallbackRound(i, n1, n2))
  }

  /** The fallback's opening line. */
  function FallbackIntroduction(n1: string, n2: string): string {
    "The microphone is live! " + n1 + " versus " + n2
      + " — two professionals enter, only one leaves with their dignity intact!"
  }

  const FallbackVerdict: string :=
    "It was a brutal exchange. Both fighters left it all on the stage, but one came out with slightly more dignity."

  /** The fixed battle between the two fighters, with the winner passed in. */
  function FallbackCommentary(p1: AnimeProfile, p2: AnimeProfile, winner: Winner): Record {
    var n1 := p1.profile.name;
    var n2 := p2.profile.name;
    map[
      "introduction" := Str(FallbackIntroduction(n1, n2)),
      "rounds" := Arr(FallbackRounds(n1, n2)),
      "verdict" := Str(FallbackVerdict),
      "winner" := Str(WinnerText(winner))]
  }

  /**
   * The fallback has six rounds numbered 1..6, alternating from 'profile1',
   * with damages 65, 70, 75, 80, 85, 70; its winner is the one passed in; and
   * the repair leaves its rounds unchanged.
   */
  lemma FallbackShape(p1: AnimeProfile, p2: AnimeProfile, winner: Winner)
    ensures var c := FallbackCommentary(p1, p2, winner);
      Get(c, "winner") == Str(WinnerText(winner))
      && Get(c, "rounds").Arr? && |Get(c, "rounds").items| == 6
      && forall i :: 0 <= i < 6 ==>
        var round := Get(c, "rounds").items[i];
        WellFormedRound(round, i) && Get(round.fields, "damage") == Num(FallbackDamages[i])
    ensures var rounds := FallbackRounds(p1.profile.name, p2.profile.name);
      EnforceAlternation(rounds) == seq(6, i requires 0 <= i < 6 => FieldsOf(rounds[i]))
  {
    var c := FallbackCommentary(p1, p2, winner);
    var rounds := FallbackRounds(p1.profile.name, p2.profile.name);
    assert Get(c, "rounds") == Arr(rounds);
    forall i | 0 <= i < 6
      ensures WellFormedRound(rounds[i], i) && Get(rounds[i].fields, "damage") == Num(FallbackDamages[i])
    {
      FallbackRoundWellFormed(i, p1.profile.name, p2.profile.name);
    }
    WellFormedRoundsUnchanged(rounds);
  }

  /** One fallback round: numbered, attacked by the expected side and with its fixed damage. */
  lemma FallbackRoundWellFormed(i: nat, n1: string, n2: string)
    requires i < 6
    ensures WellFormedRound(FallbackRound(i, n1, n2), i)
    ensures Get(FallbackRound(i, n1, n2).fields, "damage") == Num(FallbackDamages[i])
  {
    RoundObjectWellFormed(i, FallbackRoast(i, n1, n2), FallbackReaction(i, n1, n2));
  }

  /** Whatever its texts, a round object is well formed and carries its fixed damage. */
  lemma RoundObjectWellFormed(i: nat, roast: string, reaction: string)
    requires i < 6
    ensures WellFormedRound(RoundObject(i, roast, reaction), i)
    ensures Get(RoundObject(i, roast, reaction).fields, "damage") == Num(FallbackDamages[i])
  {
  }

  // ---------------------------------------------------------------------------
  // Fallback or repair

  /**
   * What the narrator call produced: it threw, or it answered with some text,
   * together with the outcome of parsing that text once fences are stripped
   * (`None` when the parse throws).
   */
  datatype NarratorReply = CallFailed | Replied(content: string, parsed: Option<Value>)

  /**
   * Whether converting a parsed value to a primitive throws a `TypeError`, as
   * `String(attacker)` and `Math.min(95, damage)` do: an object with its own
   * `toString` key has no callable conversion (a parsed value is never a
   * function, and `valueOf` gives back the object itself), and an array
   * converts through the texts of its elements.
   */
  predicate ConversionThrows(v: Value) {
    match v
    case Obj(fields) => "toString" in fields
    case Arr(items) => exists i :: 0 <= i < |items| && ConversionThrows(items[i])
    case _ => false
  }

  /**
   * Whether repairing the round throws: its attacker is converted to text
   * unless it is 'profile1' or 'profile2' (neither of which throws), and its
   * damage, when truthy, to a number.
   */
  predicate RoundThrows(round: Value) {
    ConversionThrows(Get(Spread(round), "attacker")) || ConversionThrows(Get(Spread(round), "damage"))
  }

  /**
   * A parsed reply the repair can work on: an object whose `rounds` is an
   * array without `null` elements and with no round whose repair throws.
   * Anything else throws inside the repair (`rounds.map` of a non-array,
   * `round.attacker` of a null round, a conversion that throws).
   */
  predicate Repairable(v: Value) {
    v.Obj? && Get(v.fields, "rounds").Arr?
    && (forall i :: 0 <= i < |Get(v.fields, "rounds").items| ==> Get(v.fields, "rounds").items[i] != Null)
    && forall i :: 0 <= i < |Get(v.fields, "rounds").items| ==> !RoundThrows(Get(v.fields, "rounds").items[i])
  }

  /** A reply with text whose parse succeeded and can be repaired. */
  predicate Usable(reply: NarratorReply) {
    reply.Replied? && reply.content != "" && reply.parsed.Some? && Repairable(reply.parsed.value)
  }

  /**
   * The commentary for a duel: the fallback without a narrator, when the
   * call throws, when the text is empty and when the parse or the repair
   * throws; otherwise the narrator's object with only `rounds` repaired.
   */
  function GenerateCommentary(hasClient: bool, reply: NarratorReply, p1: AnimeProfile, p2: AnimeProfile,
                              winner: Winner): (r: Record)
    ensures !hasClient || reply.CallFailed? ==> r == FallbackCommentary(p1, p2, winner)
    ensures reply.Replied? && !Usable(reply) ==> r == FallbackCommentary(p1, p2, winner)
    ensures hasClient && Usable(reply) ==> r == Repaired(reply.parsed.value.fields)
  {
    if hasClient && Usable(reply) then Repaired(reply.parsed.value.fields)
    else FallbackCommentary(p1, p2, winner)
  }

  /**
   * A round whose attacker is an object with its own `toString` key makes the
   * repair throw, so the fallback stands in for the narrator's reply.
   */
  lemma ToStringAttackerFallsBack(content: string, p1: AnimeProfile, p2: AnimeProfile, winner: Winner)
    requires content != ""
    ensures var round := Obj(map["attacker" := Obj(map["toString" := Num(1)])]);
      var reply := Replied(content, Some(Obj(map["rounds" := Arr([round])])));
      GenerateCommentary(true, reply, p1, p2, winner) == FallbackCommentary(p1, p2, winner)
  {
    var round := Obj(map["attacker" := Obj(map["toString" := Num(1)])]);
    assert RoundThrows(round) by {
      assert Get(Spread(round), "attacker") == Obj(map["toString" := Num(1)]);
    }
    var v := Obj(map["rounds" := Arr([round])]);
    assert Get(v.fields, "rounds").items[0] == round;
  }

  /** `parsed.rounds = enforceAlternation(parsed.rounds)`: every other field, the winner included, is kept. */
  function Repaired(fields: Record): (r: Record)
    ensures forall k :: k != "rounds" ==> (k in r <==> k in fields) && Get(r, k) == Get(fields, k)
  {
    fields["rounds" := Arr(AsValues(EnforceAlternation(ItemsOf(Get(fields, "rounds")))))]
  }

  /** Whatever the narrator does, the commentary's rounds alternate from 'profile1' and are numbered from 1. */
  lemma CommentaryRoundsAlternate(hasClient: bool, reply: NarratorReply, p1: AnimeProfile, p2: AnimeProfile,
                                  winner: Winner)
    ensures var rounds := Get(GenerateCommentary(hasClient, reply, p1, p2, winner), "rounds");
      rounds.Arr? && forall i :: 0 <= i < |rounds.items| ==>
        rounds.items[i].Obj?
        && Get(rounds.items[i].fields, "attacker") == Str(ExpectedAttacker(i))
        && Get(rounds.items[i].fields, "roundNumber") == Num(i + 1)
  {
    if hasClient && Usable(reply) {
      var rounds := ItemsOf(Get(reply.parsed.value.fields, "rounds"));
      EnforceAlternationShape(rounds);
      assert Get(GenerateCommentary(hasClient, reply, p1, p2, winner), "rounds") == Arr(AsValues(EnforceAlternation(rounds)));
    } else {
      FallbackShape(p1, p2, winner);
    }
  }
}
