/** The four results a reducer may return (src/update-types.js): plain
    objects tagged by a numeric `type`, carrying the new `state` and/or the
    `sideEffects` function. */
module UpdateTypes {
  import opened JsValues

  const NO_UPDATE := 0
  const UPDATE := 1
  const SIDE_EFFECTS := 2
  const UPDATE_WITH_SIDE_EFFECTS := 3

  /** The tag set: every tag a constructor below may put on a result. */
  predicate IsTag(t: int) {
    t == NO_UPDATE || t == UPDATE || t == SIDE_EFFECTS || t == UPDATE_WITH_SIDE_EFFECTS
  }

  /** `r.type` is one of the four tags. */
  predicate HasKnownTag(r: JsValue) {
    match Get(r, "type")
    case Some(Num(t)) => IsTag(t)
    case _ => false
  }

  /** `{type: NO_UPDATE}` */
  function NoUpdate(): (r: JsValue)
    ensures r.Object? && r.props.Keys == {"type"}
    ensures Get(r, "type") == Some(Num(NO_UPDATE))
    ensures Get(r, "state") == Some(Undefined) && Get(r, "sideEffects") == Some(Undefined)
  {
    Object(map["type" := Num(NO_UPDATE)])
  }

  /** `{type: UPDATE, state}` */
  function Update(state: JsValue): (r: JsValue)
    ensures r.Object? && r.props.Keys == {"type", "state"}
    ensures Get(r, "type") == Some(Num(UPDATE))
    ensures Get(r, "state") == Some(state)
    ensures Get(r, "sideEffects") == Some(Undefined)
  {
    Object(map["type" := Num(UPDATE), "state" := state])
  }

  /** `{type: SIDE_EFFECTS, sideEffects}` */
  function SideEffects(sideEffects: JsValue): (r: JsValue)
    ensures r.Object? && r.props.Keys == {"type", "sideEffects"}
    ensures Get(r, "type") == Some(Num(SIDE_EFFECTS))
    ensures Get(r, "sideEffects") == Some(sideEffects)
    ensures Get(r, "state") == Some(Undefined)
  {
    Object(map["type" := Num(SIDE_EFFECTS), "sideEffects" := sideEffects])
  }

  /** `{type: UPDATE_WITH_SIDE_EFFECTS, state, sideEffects}` */
  function UpdateWithSideEffects(state: JsValue, sideEffects: JsValue): (r: JsValue)
    ensures r.Object? && r.props.Keys == {"type", "state", "sideEffects"}
    ensures Get(r, "type") == Some(Num(UPDATE_WITH_SIDE_EFFECTS))
    ensures Get(r, "state") == Some(state)
    ensures Get(r, "sideEffects") == Some(sideEffects)
  {
    Object(map["type" := Num(UPDATE_WITH_SIDE_EFFECTS), "state" := state, "sideEffects" := sideEffects])
  }

  /** The four tags are 0, 1, 2, 3 and pairwise distinct, so a switch on the
      tag tells the four results apart. */
  lemma TagsDistinct()
    ensures IsTag(NO_UPDATE) && IsTag(UPDATE) && IsTag(SIDE_EFFECTS) && IsTag(UPDATE_WITH_SIDE_EFFECTS)
    ensures NO_UPDATE != UPDATE && NO_UPDATE != SIDE_EFFECTS && NO_UPDATE != UPDATE_WITH_SIDE_EFFECTS
    ensures UPDATE != SIDE_EFFECTS && UPDATE != UPDATE_WITH_SIDE_EFFECTS
    ensures SIDE_EFFECTS != UPDATE_WITH_SIDE_EFFECTS
    ensures forall t :: IsTag(t) <==> 0 <= t <= 3
  {
  }

  /** No two constructors build the same value, whatever their arguments:
      the tag alone identifies the constructor. */
  lemma ConstructorsDistinct(s: JsValue, f: JsValue, s': JsValue, f': JsValue)
    ensures NoUpdate() != Update(s) && NoUpdate() != SideEffects(f) && NoUpdate() != UpdateWithSideEffects(s, f)
    ensures Update(s) != SideEffects(f) && Update(s) != UpdateWithSideEffects(s', f')
    ensures SideEffects(f) != UpdateWithSideEffects(s', f')
    ensures Update(s) == Update(s') ==> s == s'
    ensures SideEffects(f) == SideEffects(f') ==> f == f'
    ensures UpdateWithSideEffects(s, f) == UpdateWithSideEffects(s', f') ==> s == s' && f == f'
  {
  }
}
