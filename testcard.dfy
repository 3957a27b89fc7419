/** The server-side card of `servatrice/src/testcard.cpp`: position, counters, four
    flags and an annotation, reset to a fixed baseline by `resetState` and changed one
    attribute at a time, by name, through `setAttribute`. */
module TestCards {
  import opened QtString

  /** Everything a card holds, as one value. */
  datatype CardState = CardState(
    id: int32, name: string, x: int32, y: int32, counters: int32,
    tapped: bool, attacking: bool, facedown: bool, annotation: string, doesntUntap: bool)

  /** The attributes `setAttribute` accepts. */
  datatype Attribute = Counters | Tapped | Attacking | FaceDown | Annotation | DoesntUntap

  function AttributeName(a: Attribute): string
  {
    match a
    case Counters => "counters"
    case Tapped => "tapped"
    case Attacking => "attacking"
    case FaceDown => "facedown"
    case Annotation => "annotation"
    case DoesntUntap => "doesnt_untap"
  }

  /** The attribute a name selects; names compare case-sensitively. */
  function AttributeNamed(aname: string): (a: Option<Attribute>)
    ensures a.Some? ==> AttributeName(a.value) == aname
  {
    if aname == "counters" then Some(Counters)
    else if aname == "tapped" then Some(Tapped)
    else if aname == "attacking" then Some(Attacking)
    else if aname == "facedown" then Some(FaceDown)
    else if aname == "annotation" then Some(Annotation)
    else if aname == "doesnt_untap" then Some(DoesntUntap)
    else None
  }

  lemma AttributeNameRoundTrip(a: Attribute)
    ensures AttributeNamed(AttributeName(a)) == Some(a)
  {
  }

  /** `c` and `d` differ at most in attribute `a`; identity and position never differ. */
  predicate SameExcept(c: CardState, d: CardState, a: Attribute)
  {
    && c.id == d.id && c.name == d.name && c.x == d.x && c.y == d.y
    && (a != Counters ==> c.counters == d.counters)
    && (a != Tapped ==> c.tapped == d.tapped)
    && (a != Attacking ==> c.attacking == d.attacking)
    && (a != FaceDown ==> c.facedown == d.facedown)
    && (a != Annotation ==> c.annotation == d.annotation)
    && (a != DoesntUntap ==> c.doesntUntap == d.doesntUntap)
  }

  /** The baseline a card returns to: at the origin, no counters, every flag clear,
      no annotation. */
  predicate AtBaseline(c: CardState)
  {
    && c.x == 0 && c.y == 0 && c.counters == 0
    && !c.tapped && !c.attacking && !c.facedown && !c.doesntUntap
    && c.annotation == ""
  }

  /** The state `resetState` leaves: the baseline, with identity kept. */
  function Reset(c: CardState): (r: CardState)
    ensures AtBaseline(r) && r.id == c.id && r.name == c.name
    ensures forall d :: AtBaseline(d) && d.id == c.id && d.name == c.name ==> d == r
  {
    c.(x := 0, y := 0, counters := 0, tapped := false, attacking := false,
       facedown := false, annotation := "", doesntUntap := false)
  }

  lemma ResetIdempotent(c: CardState)
    ensures Reset(Reset(c)) == Reset(c)
  {
  }

  /** A new card is at the baseline apart from its coordinates. */
  lemma NewCardIsResetApartFromPosition(name: string, id: int32, x: int32, y: int32)
    ensures Reset(CardState(id, name, x, y, 0, false, false, false, "", false))
            == CardState(id, name, 0, 0, 0, false, false, false, "", false)
  {
  }

  /** The state and verdict of `setAttribute(aname, avalue, allCards)` on a card in state `c`. */
  function ApplyAttribute(c: CardState, aname: string, avalue: string, allCards: bool): (r: (CardState, bool))
    // a refused call changes nothing; an accepted one changes only the named attribute
    ensures !r.1 ==> r.0 == c
    ensures r.1 ==> AttributeNamed(aname).Some? && SameExcept(c, r.0, AttributeNamed(aname).value)
    // unknown names are refused
    ensures AttributeNamed(aname).None? ==> !r.1
    // counters: accepted exactly when the text is a valid int, which becomes the count
    ensures aname == "counters" ==> (r.1 <==> ToInt(avalue).Some?)
    ensures aname == "counters" && r.1 ==> r.0.counters == ToInt(avalue).value
    // tapped: always accepted; tapped afterwards iff the value is "1", or the card was
    // tapped and a bulk untap is refused because of doesnt_untap
    ensures aname == "tapped" ==> r.1 && (r.0.tapped <==> avalue == "1" || (allCards && c.doesntUntap && c.tapped))
    // the other flags: always accepted, set exactly when the value is "1"
    ensures aname == "attacking" ==> r.1 && (r.0.attacking <==> avalue == "1")
    ensures aname == "facedown" ==> r.1 && (r.0.facedown <==> avalue == "1")
    ensures aname == "doesnt_untap" ==> r.1 && (r.0.doesntUntap <==> avalue == "1")
    // annotation: always accepted, stored verbatim
    ensures aname == "annotation" ==> r.1 && r.0.annotation == avalue
  {
    if aname == "counters" then
      match ToInt(avalue)
      case None => (c, false)
      case Some(v) => (c.(counters := v), true)
    else if aname == "tapped" then
      var value := avalue == "1";
      if !(!value && allCards && c.doesntUntap) then (c.(tapped := value), true) else (c, true)
    else if aname == "attacking" then (c.(attacking := avalue == "1"), true)
    else if aname == "facedown" then (c.(facedown := avalue == "1"), true)
    else if aname == "annotation" then (c.(annotation := avalue), true)
    else if aname == "doesnt_untap" then (c.(doesntUntap := avalue == "1"), true)
    else (c, false)
  }

  /** Repeating a `setAttribute` call leaves the state it produced, with the same verdict. */
  lemma SetAttributeIdempotent(c: CardState, aname: string, avalue: string, allCards: bool)
    ensures ApplyAttribute(ApplyAttribute(c, aname, avalue, allCards).0, aname, avalue, allCards)
            == ApplyAttribute(c, aname, avalue, allCards)
  {
  }

  /** A bulk untap of a card flagged doesnt_untap is accepted but leaves the card as it was. */
  lemma BulkUntapRefused(c: CardState, avalue: string)
    requires c.doesntUntap && avalue != "1"
    ensures ApplyAttribute(c, "tapped", avalue, true) == (c, true)
  {
  }

  class TestCard {
    var id: int32
    var name: string
    var x: int32
    var y: int32
    var counters: int32
    var tapped: bool
    var attacking: bool
    var facedown: bool
    var annotation: string
    var doesntUntap: bool

    function State(): CardState
      reads this
    {
      CardState(id, name, x, y, counters, tapped, attacking, facedown, annotation, doesntUntap)
    }

    /** A new card: the given identity and coordinates, no counters, every flag clear,
        no annotation. */
    constructor (name: string, id: int32, x: int32, y: int32)
      ensures State() == CardState(id, name, x, y, 0, false, false, false, "", false)
    {
      this.id, this.name, this.x, this.y := id, name, x, y;
      counters := 0;
      tapped, attacking, facedown := false, false, false;
      annotation := "";
      doesntUntap := false;
    }

    method SetCoords(x: int32, y: int32)
      modifies this
      ensures State() == old(State()).(x := x, y := y)
    {
      this.x, this.y := x, y;
    }

    method SetCounters(counters: int32)
      modifies this
      ensures State() == old(State()).(counters := counters)
    {
      this.counters := counters;
    }

    method SetTapped(tapped: bool)
      modifies this
      ensures State() == old(State()).(tapped := tapped)
    {
      this.tapped := tapped;
    }

    method SetAttacking(attacking: bool)
      modifies this
      ensures State() == old(State()).(attacking := attacking)
    {
      this.attacking := attacking;
    }

    method SetFaceDown(facedown: bool)
      modifies this
      ensures State() == old(State()).(facedown := facedown)
    {
      this.facedown := facedown;
    }

    method SetAnnotation(annotation: string)
      modifies this
      ensures State() == old(State()).(annotation := annotation)
    {
      this.annotation := annotation;
    }

    method SetDoesntUntap(doesntUntap: bool)
      modifies this
      ensures State() == old(State()).(doesntUntap := doesntUntap)
    {
      this.doesntUntap := doesntUntap;
    }

    /** `resetState`. */
    method ResetState()
      modifies this
      ensures State() == Reset(old(State()))
    {
      SetCoords(0, 0);
      SetCounters(0);
      SetTapped(false);
      SetAttacking(false);
      SetFaceDown(false);
      SetAnnotation("");
      SetDoesntUntap(false);
    }

    /** `setAttribute`: returns whether the name and value were accepted. */
    method SetAttribute(aname: string, avalue: string, allCards: bool) returns (ok: bool)
      modifies this
      ensures (State(), ok) == ApplyAttribute(old(State()), aname, avalue, allCards)
    {
      if aname == "counters" {
        var parsed := ToInt(avalue);
        if parsed.None? {
          return false;
        }
        SetCounters(parsed.value);
      } else if aname == "tapped" {
        var value := avalue == "1";
        if !(!value && allCards && doesntUntap) {
          SetTapped(value);
        }
      } else if aname == "attacking" {
        SetAttacking(avalue == "1");
      } else if aname == "facedown" {
        SetFaceDown(avalue == "1");
      } else if aname == "annotation" {
        SetAnnotation(avalue);
      } else if aname == "doesnt_untap" {
        SetDoesntUntap(avalue == "1");
      } else {
        return false;
      }
      return true;
    }
  }
}
