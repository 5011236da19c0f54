/** The app's shared types: the WOOP stage enumeration, the four collected
  * answers and a chat turn. */
module Types {
  import opened Wrappers
  import opened JsBuiltins

  /** `WOOPStep`, in declaration order. */
  datatype Step = WISH | OUTCOME | OBSTACLE | PLAN | SUMMARY

  /** The string value of each enum member. */
  function Name(s: Step): string {
    match s
    case WISH => "WISH"
    case OUTCOME => "OUTCOME"
    case OBSTACLE => "OBSTACLE"
    case PLAN => "PLAN"
    case SUMMARY => "SUMMARY"
  }

  /** Position of a member in the declaration. */
  function Ord(s: Step): nat {
    match s
    case WISH => 0
    case OUTCOME => 1
    case OBSTACLE => 2
    case PLAN => 3
    case SUMMARY => 4
  }

  /** `Object.values(WOOPStep)`: the string values in declaration order. */
  const StepValues: seq<string> := ["WISH", "OUTCOME", "OBSTACLE", "PLAN", "SUMMARY"]

  /** The member whose string value is `v`, if any (the reading direction of `Name`). */
  function StepNamed(v: string): (r: Option<Step>)
    ensures r.Some? ==> Name(r.value) == v
    ensures forall s :: Name(s) == v ==> r == Some(s)
  {
    if v == "WISH" then Some(WISH)
    else if v == "OUTCOME" then Some(OUTCOME)
    else if v == "OBSTACLE" then Some(OBSTACLE)
    else if v == "PLAN" then Some(PLAN)
    else if v == "SUMMARY" then Some(SUMMARY)
    else None
  }

  /** `Object.values(WOOPStep)` lists exactly the five members, each once, at
    * its declaration position; so `indexOf` on it yields `Ord`. */
  lemma StepValuesInOrder(s: Step)
    ensures |StepValues| == 5
    ensures StepValues[Ord(s)] == Name(s)
    ensures IndexOf(StepValues, Name(s)) == Ord(s)
  {
    var i := IndexOf(StepValues, Name(s));
    assert Name(s) in StepValues by { assert StepValues[Ord(s)] == Name(s); }
    assert StepNamed(StepValues[i]) == Some(s);
  }

  /** The four answer slots of `WOOPData`. */
  datatype Field = Wish | Outcome | Obstacle | Plan

  /** The property name of each slot. */
  function Key(f: Field): string {
    match f
    case Wish => "wish"
    case Outcome => "outcome"
    case Obstacle => "obstacle"
    case Plan => "plan"
  }

  /** Property lookup `key as keyof WOOPData`: a slot exactly when `key` is
    * one of the four property names. */
  function FieldNamed(key: string): (r: Option<Field>)
    ensures r.Some? ==> Key(r.value) == key
    ensures forall f :: Key(f) == key ==> r == Some(f)
  {
    if key == "wish" then Some(Wish)
    else if key == "outcome" then Some(Outcome)
    else if key == "obstacle" then Some(Obstacle)
    else if key == "plan" then Some(Plan)
    else None
  }

  /** The slot a stage's answer is stored in. */
  function FieldOf(s: Step): Field
    requires s != SUMMARY
  {
    match s
    case WISH => Wish
    case OUTCOME => Outcome
    case OBSTACLE => Obstacle
    case PLAN => Plan
  }

  /** `currentStep.toLowerCase() as keyof WOOPData`: lower-casing the value
    * of each of the first four stages names exactly that stage's slot, and
    * lower-casing SUMMARY names no slot. */
  function SlotOf(s: Step): (r: Option<Field>)
    ensures s != SUMMARY ==> r == Some(FieldOf(s))
    ensures s == SUMMARY ==> r == None
  {
    var upper := Name(s);
    match s
    case WISH => LowerIs(upper, "wish"); FieldNamed(ToLower(upper))
    case OUTCOME => LowerIs(upper, "outcome"); FieldNamed(ToLower(upper))
    case OBSTACLE => LowerIs(upper, "obstacle"); FieldNamed(ToLower(upper))
    case PLAN => LowerIs(upper, "plan"); FieldNamed(ToLower(upper))
    case SUMMARY => LowerIs(upper, "summary"); FieldNamed(ToLower(upper))
  }

  /** Text whose characters lower-case one by one to those of `lower`
    * lower-cases to `lower`. */
  lemma LowerIs(upper: string, lower: string)
    requires |upper| == |lower|
    requires forall i :: 0 <= i < |upper| ==> LowerChar(upper[i]) == lower[i]
    ensures ToLower(upper) == lower
  {
  }

  /** `WOOPData` */
  datatype WoopData = WoopData(wish: string, outcome: string, obstacle: string, plan: string) {

    function Get(f: Field): string {
      match f
      case Wish => wish
      case Outcome => outcome
      case Obstacle => obstacle
      case Plan => plan
    }

    /** `{ ...this, [Key(f)]: v }`: slot `f` becomes `v`, the other three keep their text. */
    function With(f: Field, v: string): (r: WoopData)
      ensures r.Get(f) == v
      ensures forall g :: g != f ==> r.Get(g) == Get(g)
    {
      match f
      case Wish => this.(wish := v)
      case Outcome => this.(outcome := v)
      case Obstacle => this.(obstacle := v)
      case Plan => this.(plan := v)
    }
  }

  /** The initial value `{ wish: '', outcome: '', obstacle: '', plan: '' }`. */
  const EmptyData: WoopData := WoopData("", "", "", "")

  /** `ChatMessage.role` */
  datatype Role = User | Model

  function RoleName(r: Role): string {
    match r
    case User => "user"
    case Model => "model"
  }

  /** `ChatMessage` */
  datatype ChatMessage = ChatMessage(role: Role, text: string)
}
