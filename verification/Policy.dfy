/** Which tool calls need the user's approval (agent/policy.py). */
module Policy {
  import opened PyText
  import opened PlanModel
  import opened PlanValidator
  import ToolSchema

  datatype Decision = AUTO_APPROVE | REQUIRE_APPROVAL

  /** A tool's own risk for given arguments; None where it has no such method or the method raises. */
  type ArgumentRisk = (string, map<string, Value>) -> Option<Risk>

  predicate GatedRisk(r: Risk) {
    r in {MEDIUM, HIGH, CRITICAL}
  }

  function CallRisk(reg: Registry, riskOf: ArgumentRisk, toolName: string, arguments: map<string, Value>): Risk {
    if toolName !in reg then HIGH
    else match riskOf(toolName, arguments) { case Some(r) => r case None => reg[toolName].risk }
  }

  function Evaluate(reg: Registry, riskOf: ArgumentRisk, toolName: string, arguments: map<string, Value>): Decision {
    if GatedRisk(CallRisk(reg, riskOf, toolName, arguments)) then REQUIRE_APPROVAL else AUTO_APPROVE
  }

  /**
   * A call needs approval exactly if its tool is not registered or its risk is neither READ_ONLY nor LOW, the risk
   * being the tool's own for these arguments, or its static one where it has none for them.
   */
  lemma GateExactly(reg: Registry, riskOf: ArgumentRisk, toolName: string, arguments: map<string, Value>)
    ensures Evaluate(reg, riskOf, toolName, arguments) == REQUIRE_APPROVAL <==>
            || toolName !in reg
            || var own := riskOf(toolName, arguments);
               (if own.Some? then own.value else reg[toolName].risk) !in {READ_ONLY, LOW}
  {
    if toolName in reg {
      var own := riskOf(toolName, arguments);
      OnlyLowPasses(if own.Some? then own.value else reg[toolName].risk);
    }
  }

  lemma OnlyLowPasses(r: Risk)
    ensures GatedRisk(r) <==> r !in {READ_ONLY, LOW}
  {
    match r case READ_ONLY => case LOW => case MEDIUM => case HIGH => case CRITICAL =>
  }

  // ------------------------------------------------------------------------
  // Describing a call to the user
  // ------------------------------------------------------------------------

  // With PROPOSE_PLAN, the tools that have a description of their own.
  const DELETE_OBJECT: string := "delete_object"
  const CREATE_PRIMITIVE: string := "create_primitive"
  const CREATE_CAMERA: string := "create_camera"
  const CREATE_LIGHT: string := "create_light"
  const SET_SHADING: string := "set_shading"
  const ADD_MODIFIER: string := "add_modifier"
  const TRANSFORM_OBJECT: string := "transform_object"
  const DUPLICATE_OBJECT: string := "duplicate_object"

  /** The arguments that the description of a call treats as texts; the other tools have theirs listed as they are. */
  function DescribedArguments(toolName: string): set<string> {
    if toolName in {DELETE_OBJECT, CREATE_CAMERA, TRANSFORM_OBJECT} then {"name"}
    else if toolName == CREATE_PRIMITIVE then {"primitive_type"}
    else if toolName == CREATE_LIGHT then {"name", "light_type"}
    else if toolName == SET_SHADING then {"name", "shading"}
    else if toolName == ADD_MODIFIER then {"name", "modifier_type"}
    else if toolName == DUPLICATE_OBJECT then {"source_name", "new_name"}
    else if toolName == PROPOSE_PLAN then {"title"}
    else {}
  }

  /** Tool by tool, by the names under which the tools are registered. */
  lemma DescribedTools()
    ensures DescribedArguments("delete_object") == {"name"}
    ensures DescribedArguments("create_primitive") == {"primitive_type"}
    ensures DescribedArguments("create_camera") == {"name"}
    ensures DescribedArguments("create_light") == {"name", "light_type"}
    ensures DescribedArguments("set_shading") == {"name", "shading"}
    ensures DescribedArguments("add_modifier") == {"name", "modifier_type"}
    ensures DescribedArguments("transform_object") == {"name"}
    ensures DescribedArguments("duplicate_object") == {"source_name", "new_name"}
    ensures DescribedArguments("propose_plan") == {"title"}
  {
  }

  /** An argument that should be a text is given and is none: describing the call raises. */
  predicate DescriptionRaises(toolName: string, arguments: map<string, Value>) {
    exists a <- DescribedArguments(toolName) :: a in arguments && !arguments[a].Str?
  }

  /** `arguments.get(name, absent)`, used as a text. */
  function TextOf(arguments: map<string, Value>, name: string, absent: string): (r: Option<string>)
    ensures r.None? <==> name in arguments && !arguments[name].Str?
  {
    if name !in arguments then Some(absent)
    else if arguments[name].Str? then Some(arguments[name].s)
    else None
  }

  /** Letter case and the listing of arbitrary values are Python's. */
  datatype Wording = Wording(
    lower: string -> string,
    capitalize: string -> string,
    listing: map<string, Value> -> string)

  function Quoted(s: string): string {
    "\"" + s + "\""
  }

  /** How a given text appears: kinds in their letter case, names stripped and in quotes. */
  function Shown(w: Wording, name: string, text: string): string {
    if name in {"light_type", "shading"} then w.lower(text)
    else if name in {"primitive_type", "modifier_type"} then w.capitalize(text)
    else Quoted(Strip(text))
  }

  /** A name is given that is not blank. */
  predicate GivesName(arguments: map<string, Value>, name: string) {
    name in arguments && arguments[name].Str? && !Blank(arguments[name].s)
  }

  /**
   * Given kinds appear, names unless they are blank, and the new name of a duplicate only beside that of its
   * source.
   */
  predicate Appears(arguments: map<string, Value>, name: string) {
    if name == "new_name" then GivesName(arguments, name) && GivesName(arguments, "source_name")
    else if name in {"name", "source_name", "title"} then GivesName(arguments, name)
    else name in arguments && arguments[name].Str?
  }

  /** Every described argument that appears does so as it should. */
  predicate ShowsAll(toolName: string, arguments: map<string, Value>, w: Wording, text: string) {
    forall a <- DescribedArguments(toolName) | Appears(arguments, a) :: Contains(text, Shown(w, a, arguments[a].s))
  }

  lemma ContainsMiddle(before: string, part: string, behind: string)
    ensures Contains(before + part + behind, part)
  {
    var text := before + part + behind;
    assert text[|before|..] == part + behind;
    assert OccursAt(text, part, |before|);
  }

  lemma ContainsEnd(before: string, part: string)
    ensures Contains(before + part, part)
  {
    assert before + part + "" == before + part;
    ContainsMiddle(before, part, "");
  }

  lemma ContainsPair(before: string, one: string, link: string, other: string)
    ensures var text := before + one + link + other;
            Contains(text, one) && Contains(text, other) && Contains(text, one + link + other)
  {
    hide Contains;
    var text := before + one + link + other;
    assert before + one + (link + other) == text && before + (one + link + other) == text;
    ContainsMiddle(before, one, link + other);
    ContainsEnd(before + one + link, other);
    ContainsEnd(before, one + link + other);
  }

  predicate ShowsName(arguments: map<string, Value>, name: string, text: string) {
    GivesName(arguments, name) ==> Contains(text, Quoted(Strip(arguments[name].s)))
  }

  /** A description that names the object, if it has a name. */
  function Named(arguments: map<string, Value>, prefix: string, unnamed: string): (r: Option<string>)
    ensures r.None? <==> "name" in arguments && !arguments["name"].Str?
    ensures r.Some? ==> ShowsName(arguments, "name", r.value)
  {
    match TextOf(arguments, "name", "")
    case None => None
    case Some(name) =>
      if Blank(name) then Some(unnamed)
      else
        ContainsEnd(prefix, Quoted(Strip(name)));
        Some(prefix + Quoted(Strip(name)))
  }

  /** A description that says what kind of thing is made or set, and then names the object, if it has a name. */
  method NamedKind(arguments: map<string, Value>, verb: string, kind: string, noun: string, link: string)
    returns (text: Option<string>)
    ensures text.None? <==> "name" in arguments && !arguments["name"].Str?
    ensures text.Some? ==> ShowsName(arguments, "name", text.value) && Contains(text.value, kind)
  {
    var action := verb + kind + noun;
    text := Named(arguments, action + link, action);
    ContainsMiddle(verb, kind, noun);
    if text.Some? && text.value != action {
      assert text.value == verb + kind + (noun + link + Quoted(Strip(arguments["name"].s)));
      ContainsMiddle(verb, kind, noun + link + Quoted(Strip(arguments["name"].s)));
    }
  }

  method DescribeDuplicate(arguments: map<string, Value>) returns (text: Option<string>)
    ensures text.None? <==> DescriptionRaises(DUPLICATE_OBJECT, arguments)
    ensures text.Some? ==> ShowsName(arguments, "source_name", text.value)
    ensures text.Some? && GivesName(arguments, "new_name") && GivesName(arguments, "source_name") ==>
            && Contains(text.value, Quoted(Strip(arguments["new_name"].s)))
            && Contains(text.value,
                        Quoted(Strip(arguments["source_name"].s)) + " as " + Quoted(Strip(arguments["new_name"].s)))
  {
    assert Blank("");
    hide Contains, Strip, Quoted;
    var source := TextOf(arguments, "source_name", "");
    var target := TextOf(arguments, "new_name", "");
    if source.None? || target.None? {
      return None;
    }
    var src, dst := Quoted(Strip(source.value)), Quoted(Strip(target.value));
    if !Blank(source.value) && !Blank(target.value) {
      text := Some("Duplicate " + src + " as " + dst);
      ContainsPair("Duplicate ", src, " as ", dst);
    } else if !Blank(source.value) {
      text := Some("Duplicate " + src);
      ContainsEnd("Duplicate ", src);
    } else {
      text := Some("Duplicate object");
    }
  }

  /**
   * A description fails exactly if a described argument is given and is no text; otherwise it shows the described
   * arguments, the source of a duplicate before its new name, or lists all arguments behind the tool's name.
   */
  method HumanDescription(toolName: string, arguments: map<string, Value>, w: Wording) returns (text: Option<string>)
    ensures text.None? <==> DescriptionRaises(toolName, arguments)
    ensures text.Some? ==> ShowsAll(toolName, arguments, w, text.value)
    ensures text.Some? && toolName == DUPLICATE_OBJECT && Appears(arguments, "new_name") ==>
            Contains(text.value,
                     Quoted(Strip(arguments["source_name"].s)) + " as " + Quoted(Strip(arguments["new_name"].s)))
    ensures DescribedArguments(toolName) == {} ==>
            text == Some(if w.listing(arguments) == "" then toolName else toolName + "(" + w.listing(arguments) + ")")
  {
    hide Contains, Blank, Strip, Quoted;
    if toolName == DELETE_OBJECT {
      text := Named(arguments, "Delete ", "Delete object");
    } else if toolName == CREATE_PRIMITIVE {
      var kind := TextOf(arguments, "primitive_type", "object");
      if kind.None? {
        return None;
      }
      text := Some("Create " + w.capitalize(kind.value));
      ContainsEnd("Create ", w.capitalize(kind.value));
    } else if toolName == CREATE_CAMERA {
      text := Named(arguments, "Create camera ", "Create camera");
    } else if toolName == CREATE_LIGHT {
      var kind := TextOf(arguments, "light_type", "light");
      if kind.None? {
        return None;
      }
      text := NamedKind(arguments, "Create ", w.lower(kind.value), "", " ");
    } else if toolName == SET_SHADING {
      var shading := TextOf(arguments, "shading", "smooth");
      if shading.None? {
        return None;
      }
      text := NamedKind(arguments, "Set ", w.lower(shading.value), " shading", " on ");
    } else if toolName == ADD_MODIFIER {
      var kind := TextOf(arguments, "modifier_type", "modifier");
      if kind.None? {
        return None;
      }
      text := NamedKind(arguments, "Add ", w.capitalize(kind.value), " modifier", " to ");
    } else if toolName == TRANSFORM_OBJECT {
      text := Named(arguments, "Transform ", "Transform object");
    } else if toolName == DUPLICATE_OBJECT {
      text := DescribeDuplicate(arguments);
    } else if toolName == PROPOSE_PLAN {
      var title := TextOf(arguments, "title", "");
      if title.None? {
        return None;
      }
      text := Some(if Blank(title.value) then "Propose plan" else "Propose plan " + Quoted(Strip(title.value)));
      ContainsEnd("Propose plan ", Quoted(Strip(title.value)));
    } else {
      var listed := w.listing(arguments);
      text := Some(if listed == "" then toolName else toolName + "(" + listed + ")");
    }
  }

  /** A schema that declares the described arguments of a tool to be strings. */
  predicate DeclaresTexts(schema: ToolSchema.Schema, toolName: string) {
    forall a <- DescribedArguments(toolName) :: a in schema.properties && schema.properties[a].kind.StringKind?
  }

  /**
   * Arguments that conform to such a schema are described without raising: calls are not checked before, plan
   * steps are.
   */
  lemma ConformingDescription(schema: ToolSchema.Schema, toolName: string, arguments: map<string, Value>)
    requires DeclaresTexts(schema, toolName) && ToolSchema.Conforms(schema, arguments)
    ensures !DescriptionRaises(toolName, arguments)
  {
    forall a <- DescribedArguments(toolName) | a in arguments
      ensures arguments[a].Str?
    {
      assert ToolSchema.Fits(arguments[a], schema.properties[a]);
    }
  }

  /** Plans that may start without asking, if the user allows that at all. */
  predicate LowRisk(p: Plan) {
    p.overallRisk in {READ_ONLY, LOW}
  }

  lemma LowRiskSteps(reg: Registry, steps: seq<PlanStep>, k: nat)
    requires k < |steps| && forall i :: 0 <= i < |steps| ==> steps[i].toolName in reg
    requires !GatedRisk(MaxRisk(Risks(reg, steps)))
    ensures !GatedRisk(reg[steps[k].toolName].risk)
  {
    var risks := Risks(reg, steps);
    MaxRiskIsMaximum(risks);
    assert risks[k] in risks;
  }

  /**
   * A plan that starts without asking holds a call that would be stopped if made directly exactly where
   * the tool itself rates the arguments higher than its static level: the plan's risk ignores arguments.
   */
  lemma DirectGateOnPlanStep(reg: Registry, riskOf: ArgumentRisk, p: Plan, k: nat)
    requires Canonical(reg, p) && LowRisk(p) && k < |p.steps|
    ensures var s := p.steps[k];
            && s.arguments.Proxy? && s.toolName in reg
            && (Evaluate(reg, riskOf, s.toolName, s.arguments.entries) == REQUIRE_APPROVAL
                <==> match riskOf(s.toolName, s.arguments.entries) { case Some(r) => GatedRisk(r) case None => false })
  {
    forall i | 0 <= i < |p.steps|
      ensures p.steps[i].toolName in reg
    {
      assert ToolOk(reg, Thaw(p.steps[i]));
    }
    LowRiskSteps(reg, p.steps, k);
  }

  lemma CleanLetter(s: string)
    requires |s| == 1 && !IsSpace(s[0])
    ensures Clean(s)
  {
    assert StripLeft(s) == s;
  }

  /** A LOW tool that rates this very call HIGH: the call would be stopped directly, the validated plan is not. */
  lemma GatedCallInUnaskedPlan() returns (reg: Registry, riskOf: ArgumentRisk, p: Plan)
    ensures Validate(reg, PlanToDict(p), "p") == Some(p) && LowRisk(p)
    ensures |p.steps| == 1 && p.steps[0].arguments.Proxy?
    ensures Evaluate(reg, riskOf, p.steps[0].toolName, p.steps[0].arguments.entries) == REQUIRE_APPROVAL
  {
    reg := map["t" := Tool(ToolSchema.Schema([], map[], false), LOW)];
    riskOf := (name, arguments) => Some(HIGH);
    var s := PlanStep("s", "t", Proxy(map[]), "", [], None);
    p := Plan("p", "p", "", [s], LOW);
    CleanLetter("s");
    CleanLetter("t");
    CleanLetter("p");
    assert Unfreeze(s.arguments) == Dict(map[]) && Freeze(Dict(map[])) == Proxy(map[]);
    assert "t" in reg && "t" != PROPOSE_PLAN;
    assert CleanStep(s) && ToolOk(reg, Thaw(s));
    assert Risks(reg, p.steps) == [LOW];
    CanonicalIsFixedPoint(reg, p, "p");
  }
}
