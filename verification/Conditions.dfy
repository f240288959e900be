/** Condition nodes: what they compute and which edges that selects (`internal/executor/nodes.go`, `graph.go`). */
module Conditions {
  import opened Text
  import opened Values
  import opened Workflow
  import opened Graphs

  /** How a value that is not a string is written out as text. */
  type Rendering = Value -> string

  function Get(m: Fields, key: string): Value {
    if key in m then m[key] else Null
  }

  function RenderAny(render: Rendering, value: Value): string {
    if value.Null? then "" else render(value)
  }

  function AnyString(render: Rendering, value: Value): string {
    if value.Str? then value.s else RenderAny(render, value)
  }

  function StringConfig(render: Rendering, config: Fields, key: string, fallback: string): string {
    if key in config && TrimSpace(AnyString(render, config[key])) != "" then TrimSpace(AnyString(render, config[key]))
    else fallback
  }

  predicate Contains(s: string, part: string) {
    exists i :: 0 <= i <= |s| && part <= s[i..]
  }

  /** A workflow input by its key or, if the configuration names one, the rendered output of an earlier step. */
  function Compared(render: Rendering, config: Fields, input: Fields, outputs: Fields): string {
    var step := StringConfig(render, config, "context_step", "");
    if step != "" then RenderAny(render, Get(outputs, step))
    else AnyString(render, Get(input, StringConfig(render, config, "input_key", "")))
  }

  function Operator(render: Rendering, config: Fields): string {
    ToLower(StringConfig(render, config, "operator", "equals"))
  }

  function Target(render: Rendering, config: Fields): string {
    StringConfig(render, config, "equals", StringConfig(render, config, "value", ""))
  }

  function Report(matched: bool, operator: string, value: string, target: string): Value {
    Object(map["matched" := Bool(matched), "operator" := Str(operator), "value" := Str(value), "target" := Str(target)])
  }

  function ExecuteCondition(render: Rendering, config: Fields, input: Fields, outputs: Fields): Result<Value, string> {
    var value, operator, target := Compared(render, config, input, outputs),
        Operator(render, config), Target(render, config);
    if operator == "equals" then Ok(Report(EqualFold(TrimSpace(value), TrimSpace(target)), operator, value, target))
    else if operator == "contains" then Ok(Report(Contains(ToLower(value), ToLower(target)), operator, value, target))
    else Err("unsupported condition operator")
  }

  /** Whether the comparison holds, for the operators that exist. */
  predicate Holds(render: Rendering, config: Fields, input: Fields, outputs: Fields) {
    var value, target := Compared(render, config, input, outputs), Target(render, config);
    if Operator(render, config) == "equals" then EqualFold(TrimSpace(value), TrimSpace(target))
    else Contains(ToLower(value), ToLower(target))
  }

  /** A condition fails exactly for an unknown operator; otherwise its report carries the comparison as a flag. */
  lemma ConditionReports(render: Rendering, config: Fields, input: Fields, outputs: Fields)
    ensures var r := ExecuteCondition(render, config, input, outputs);
            && (r.Ok? <==> Operator(render, config) in {"equals", "contains"})
            && (r.Ok? ==> (Matched(r.value) <==> Holds(render, config, input, outputs)))
            && (r.Ok? ==> r.value.Object? && "matched" in r.value.fields && r.value.fields["matched"].Bool?)
  {
    hide TrimSpace, ToLower, EqualFold, Contains, StringConfig;
  }

  lemma TakenByLabel(d: Definition, n: Node, output: Value, e: Edge)
    requires n.typ == "condition"
    ensures e in Taken(GraphOf(d), n, output) <==> e in d.edges && e.from == n.id && LabelIs(e, BranchOf(output))
  {
    OutboundIsEdgesFrom(d, n.id);
    EdgesFromMember(d.edges, n.id, e);
    hide GraphOf, EdgesFrom, TrimSpace;
    assert ToLower(BranchOf(output)) == BranchOf(output);
  }

  /**
   * On an accepted definition a condition that succeeds takes the edges labelled with the outcome of its
   * comparison, all of them and no others, and there is at least one.
   */
  lemma ConditionRoutes(
    d: Definition, httpToolOK: Fields -> bool, n: Node, render: Rendering, input: Fields, outputs: Fields)
    requires Accepted(d, httpToolOK) && n in d.nodes && n.typ == "condition"
    requires ExecuteCondition(render, n.config, input, outputs).Ok?
    ensures var output := ExecuteCondition(render, n.config, input, outputs).value;
            var branch := if Holds(render, n.config, input, outputs) then "true" else "false";
            && Next(GraphOf(d), n, output) != []
            && forall e :: e in Taken(GraphOf(d), n, output) <==> e in d.edges && e.from == n.id && LabelIs(e, branch)
  {
    hide Accepted, ExecuteCondition, Holds, Matched, LabelIs, Taken, Next, GraphOf;
    var output := ExecuteCondition(render, n.config, input, outputs).value;
    ConditionReports(render, n.config, input, outputs);
    AcceptedConditionContinues(d, httpToolOK, n, output);
    forall e
      ensures e in Taken(GraphOf(d), n, output) <==> e in d.edges && e.from == n.id && LabelIs(e, BranchOf(output))
    {
      TakenByLabel(d, n, output, e);
    }
  }

  // The same without the helpers: which settings are read, and what is compared with what

  /** A value as text: a string as it is, nothing for null, anything else as it is rendered. */
  ghost predicate Written(render: Rendering, value: Value, text: string) {
    match value
    case Null => text == ""
    case Str(s) => text == s
    case _ => text == render(value)
  }

  /** The setting's text, trimmed, or the fallback if there is none or it is blank. */
  ghost predicate Setting(render: Rendering, config: Fields, key: string, fallback: string, text: string) {
    if key !in config then text == fallback
    else
      exists written :: Written(render, config[key], written)
                        && text == if TrimSpace(written) == "" then fallback else TrimSpace(written)
  }

  /** An earlier step's output if one is named, rendered even if it is a string, or else an input, as text. */
  ghost predicate Subject(render: Rendering, config: Fields, input: Fields, outputs: Fields, value: string) {
    exists step, key ::
      && Setting(render, config, "context_step", "", step) && Setting(render, config, "input_key", "", key)
      && if step != "" then
           value == if step !in outputs || outputs[step] == Null then "" else render(outputs[step])
         else if key in input then Written(render, input[key], value) else value == ""
  }

  ghost predicate OccursAt(value: string, target: string, i: nat) {
    i + |target| <= |value| && EqualFold(value[i..i + |target|], target)
  }

  /** Equal but for case and white space around, or containing the target at some place but for case. */
  ghost predicate Satisfies(operator: string, value: string, target: string) {
    if operator == "equals" then EqualFold(TrimSpace(value), TrimSpace(target))
    else exists i: nat :: OccursAt(value, target, i)
  }

  lemma StringConfigReads(render: Rendering, config: Fields, key: string, fallback: string)
    ensures Setting(render, config, key, fallback, StringConfig(render, config, key, fallback))
  {
    hide TrimSpace;
    if key in config {
      assert Written(render, config[key], AnyString(render, config[key]));
    }
  }

  lemma ComparedIsSubject(render: Rendering, config: Fields, input: Fields, outputs: Fields)
    ensures Subject(render, config, input, outputs, Compared(render, config, input, outputs))
  {
    StringConfigReads(render, config, "context_step", "");
    StringConfigReads(render, config, "input_key", "");
    hide StringConfig, Setting;
  }

  lemma OccursFolded(value: string, target: string, i: nat)
    ensures OccursAt(value, target, i) <==> i <= |value| && ToLower(target) <= ToLower(value)[i..]
  {
    if i + |target| <= |value| {
      assert ToLower(value[i..i + |target|]) == ToLower(value)[i..i + |target|];
      assert ToLower(value)[i..][..|target|] == ToLower(value)[i..i + |target|];
    }
  }

  lemma ContainsFolded(value: string, target: string)
    ensures Contains(ToLower(value), ToLower(target)) <==> exists i: nat :: OccursAt(value, target, i)
  {
    forall i: nat
      ensures OccursAt(value, target, i) <==> i <= |value| && ToLower(target) <= ToLower(value)[i..]
    {
      OccursFolded(value, target, i);
    }
    assert |ToLower(value)| == |value|;
    hide OccursAt, ToLower;
  }

  /** What a condition node computes, from its settings, the input and the earlier outputs. */
  lemma ConditionMeans(render: Rendering, config: Fields, input: Fields, outputs: Fields)
    returns (value: string, operator: string, other: string, target: string)
    ensures Subject(render, config, input, outputs, value)
    ensures Setting(render, config, "operator", "equals", operator)
    ensures Setting(render, config, "value", "", other) && Setting(render, config, "equals", other, target)
    ensures var op := ToLower(operator);
            ExecuteCondition(render, config, input, outputs)
            == if op !in {"equals", "contains"} then Err("unsupported condition operator")
               else Ok(Object(map["matched" := Bool(Satisfies(op, value, target)), "operator" := Str(op),
                                  "value" := Str(value), "target" := Str(target)]))
  {
    value, target := Compared(render, config, input, outputs), Target(render, config);
    operator, other := StringConfig(render, config, "operator", "equals"), StringConfig(render, config, "value", "");
    ComparedIsSubject(render, config, input, outputs);
    StringConfigReads(render, config, "operator", "equals");
    StringConfigReads(render, config, "value", "");
    StringConfigReads(render, config, "equals", StringConfig(render, config, "value", ""));
    ContainsFolded(value, target);
    hide StringConfig, Setting, Subject, Compared, TrimSpace, ToLower, EqualFold, Contains;
  }
}
