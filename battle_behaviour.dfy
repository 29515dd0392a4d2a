/**
 * app/js/behaviors/BattleBehaviour.js: the client-side behaviour that
 * reacts to `attack` events on a unit, remembering whether it is attacking
 * and whom, and asking the level to show the damage or a miss. The
 * level's entity lookup and tile positioning are collaborators that are
 * not shown: their answers come in as parameters. The death tween is left
 * out.
 */
module BattleFeedback {
  import opened Common
  import opened Text

  const FEEDBACK_TTL := 100

  /** A position in the 3-D scene's floor plane. */
  datatype Spot = Spot(x: real, z: real)

  /** The `attack` event's data; an empty `attackType` is JavaScript's falsy `type`. */
  datatype AttackData = AttackData(attackType: string, position: Point, damage: int, missed: bool, critical: bool)

  /** The text-event entity the behaviour asks the level to create. */
  datatype TextRequest = TextRequest(text: string, kind: string, ttl: int, special: bool, position: Point)

  /** The label for an attack: "miss" as a warning, otherwise the damage taken as a negative number. */
  function Feedback(data: AttackData): (t: TextRequest)
    ensures t.ttl == FEEDBACK_TTL && t.special == data.critical && t.position == data.position
    ensures t.kind == "warn" <==> data.missed
    ensures data.missed ==> t.text == "miss"
    ensures !data.missed ==> (t.kind == "attention" && |t.text| > 1 && t.text[0] == '-' &&
      ParseDecimal(t.text[1..]) == Some(data.damage))
  {
    IntToStringReadsBack(data.damage);
    var damageText := "-" + IntToString(data.damage);
    assert damageText[1..] == IntToString(data.damage);
    if data.missed then TextRequest("miss", "warn", FEEDBACK_TTL, data.critical, data.position)
    else TextRequest(damageText, "attention", FEEDBACK_TTL, data.critical, data.position)
  }

  class BattleBehaviour {
    var togglePosition: bool
    var isAttacking: bool
    var attackingPoint: Spot
    /** Id of the entity found at the attacked tile, if any. */
    var defender: Option<string>
    /** Text events requested from the level so far. */
    var texts: seq<TextRequest>

    /** onAttach: nothing toggled, not attacking, no defender. */
    constructor ()
      ensures !togglePosition && !isAttacking && attackingPoint == Spot(0.0, 0.0) && defender == None && texts == []
    {
      togglePosition := false;
      isAttacking := false;
      attackingPoint := Spot(0.0, 0.0);
      defender := None;
      texts := [];
    }

    method Disable()
      modifies this`isAttacking, this`togglePosition
      ensures !isAttacking && !togglePosition
    {
      isAttacking := false;
      togglePosition := false;
    }

    /** The clock callback that onAttack schedules 100 ms later. */
    method ToggleTimeout()
      modifies this`togglePosition
      ensures !togglePosition
    {
      togglePosition := false;
    }

    /**
     * onAttack. `entityAt` is what the level finds at the attacked tile and
     * `tilePoint` the point it computes there; both are read only when a
     * new attack starts.
     */
    method OnAttack(data: AttackData, entityAt: Option<string>, tilePoint: Spot)
      modifies this`togglePosition, this`isAttacking, this`attackingPoint, this`defender, this`texts
      ensures data.attackType == "" ==> (!isAttacking && !togglePosition && texts == old(texts)
        && defender == old(defender) && attackingPoint == old(attackingPoint))
      ensures data.attackType != "" ==> (isAttacking && togglePosition && texts == old(texts) + [Feedback(data)])
      ensures data.attackType != "" && !old(isAttacking) ==> defender == entityAt && attackingPoint == tilePoint
      ensures data.attackType != "" && old(isAttacking) ==> defender == old(defender) && attackingPoint == old(attackingPoint)
    {
      togglePosition := true;
      if data.attackType == "" {
        Disable();
        return;
      }
      if !isAttacking {
        defender := entityAt;
        attackingPoint := tilePoint;
        var started := OnAttackStart(attackingPoint);
      }
      texts := texts + [Feedback(data)];
    }

    /** onAttackStart: only a unit not yet attacking starts; a second call changes nothing. */
    method OnAttackStart(point: Spot) returns (started: bool)
      modifies this`isAttacking, this`togglePosition, this`attackingPoint
      ensures started <==> !old(isAttacking)
      ensures started ==> isAttacking && togglePosition && attackingPoint == point
      ensures !started ==> isAttacking == old(isAttacking) && togglePosition == old(togglePosition) && attackingPoint == old(attackingPoint)
    {
      if isAttacking {
        return false;
      }
      isAttacking := true;
      togglePosition := true;
      attackingPoint := point;
      started := true;
    }

    method OnDetach()
      modifies this`isAttacking, this`togglePosition
      ensures !isAttacking && !togglePosition
    {
      Disable();
    }
  }

  /** A miss and a hit never show the same label, and two hits show the same label only for the same damage. */
  lemma FeedbackDistinguishes(a: AttackData, b: AttackData)
    ensures a.missed && !b.missed ==> Feedback(a).text != Feedback(b).text
    ensures !a.missed && !b.missed ==> (Feedback(a).text == Feedback(b).text <==> a.damage == b.damage)
  {
    if !a.missed && !b.missed && Feedback(a).text == Feedback(b).text {
      assert Feedback(a).text[1..] == Feedback(b).text[1..];
    }
  }
}
