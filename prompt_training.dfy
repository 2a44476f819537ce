/**
 * The few-shot training editor of src/components/PromptTrainingPanel.tsx: a
 * custom prompt, the switch that enables it, and a list of `{input, output}`
 * examples that the user appends to, removes from and edits in place, and
 * that "save" hands to the caller.
 */
module PromptTraining {
  import opened Settings

  const EmptyExample := Example("", "")

  /** What "save" hands over. */
  datatype TrainingConfig = TrainingConfig(customPrompt: string, examples: seq<Example>, useCustomPrompt: bool)

  function Min(a: int, b: int): int { if a < b then a else b }
  function Max(a: int, b: int): int { if a < b then b else a }

  /** `[...examples, { input: "", output: "" }]`. */
  function Appended(examples: seq<Example>): (r: seq<Example>)
    ensures |r| == |examples| + 1
    ensures r[..|examples|] == examples && r[|examples|] == EmptyExample
  {
    examples + [EmptyExample]
  }

  /**
   * A copy of `examples` after `splice(index, 1)`. A negative index counts
   * from the end (clamped at the start) and an index at or past the end
   * removes nothing.
   */
  function Spliced(examples: seq<Example>, index: int): (r: seq<Example>)
    ensures 0 <= index < |examples| ==>
      && |r| == |examples| - 1
      && (forall j :: 0 <= j < index ==> r[j] == examples[j])
      && (forall j :: index <= j < |r| ==> r[j] == examples[j + 1])
    ensures index >= |examples| ==> r == examples
    ensures index < 0 && examples != [] ==> |r| == |examples| - 1
    ensures multiset(r) <= multiset(examples)
  {
    var start := if index < 0 then Max(|examples| + index, 0) else Min(index, |examples|);
    var deleteCount := Min(1, |examples| - start);
    assert examples == examples[..start] + examples[start..start + deleteCount] + examples[start + deleteCount..];
    examples[..start] + examples[start + deleteCount..]
  }

  /** A negative index `-k` removes the `k`-th entry from the end. */
  lemma SplicedFromEnd(examples: seq<Example>, k: int)
    requires 1 <= k <= |examples|
    ensures Spliced(examples, -k) == Spliced(examples, |examples| - k)
  {
  }

  /** Removing the entry just added gives back the list as it was. */
  lemma RemoveUndoesAdd(examples: seq<Example>)
    ensures Spliced(Appended(examples), |examples|) == examples
    ensures Spliced(Appended(examples), -1) == examples
  {
  }

  /** The list with `examples[index].input` replaced by `value`. */
  function WithInput(examples: seq<Example>, index: nat, value: string): (r: seq<Example>)
    requires index < |examples|
    ensures |r| == |examples|
    ensures r[index].input == value && r[index].output == examples[index].output
    ensures forall j :: 0 <= j < |r| && j != index ==> r[j] == examples[j]
  {
    examples[index := examples[index].(input := value)]
  }

  /** The list with `examples[index].output` replaced by `value`. */
  function WithOutput(examples: seq<Example>, index: nat, value: string): (r: seq<Example>)
    requires index < |examples|
    ensures |r| == |examples|
    ensures r[index].output == value && r[index].input == examples[index].input
    ensures forall j :: 0 <= j < |r| && j != index ==> r[j] == examples[j]
  {
    examples[index := examples[index].(output := value)]
  }

  /** Typing back the old text undoes an edit. */
  lemma EditsAreReversible(examples: seq<Example>, index: nat, value: string)
    requires index < |examples|
    ensures WithInput(WithInput(examples, index, value), index, examples[index].input) == examples
    ensures WithOutput(WithOutput(examples, index, value), index, examples[index].output) == examples
  {
  }

  /** The edits the panel makes to its example list. */
  datatype Edit =
    | AddExample
    | RemoveExample(index: int)
    | SetInput(index: int, value: string)
    | SetOutput(index: int, value: string)
    | ResetExamples

  /**
   * The list after one edit. Assigning a field of `newExamples[index]` at a
   * missing index throws before the list is replaced, so it stays as it was.
   */
  function Apply(examples: seq<Example>, edit: Edit): seq<Example> {
    match edit
    case AddExample => Appended(examples)
    case RemoveExample(i) => Spliced(examples, i)
    case SetInput(i, v) => if 0 <= i < |examples| then WithInput(examples, i, v) else examples
    case SetOutput(i, v) => if 0 <= i < |examples| then WithOutput(examples, i, v) else examples
    case ResetExamples => [EmptyExample]
  }

  /**
   * Whether the rendered panel can issue `edit`: each example's controls
   * carry that example's own index, and the remove control is rendered only
   * while there is more than one example.
   */
  predicate Offered(examples: seq<Example>, edit: Edit) {
    match edit
    case RemoveExample(i) => |examples| > 1 && 0 <= i < |examples|
    case SetInput(i, _) => 0 <= i < |examples|
    case SetOutput(i, _) => 0 <= i < |examples|
    case _ => true
  }

  /** The list after the edits the panel offers, in order; edits it does not offer cannot happen and are skipped. */
  function RunOffered(examples: seq<Example>, edits: seq<Edit>): seq<Example>
    decreases |edits|
  {
    if edits == [] then examples
    else RunOffered(if Offered(examples, edits[0]) then Apply(examples, edits[0]) else examples, edits[1..])
  }

  /** Through the panel's own controls the list never drops below one example. */
  lemma {:induction false} OfferedEditsKeepAnExample(examples: seq<Example>, edits: seq<Edit>)
    requires |examples| >= 1
    ensures |RunOffered(examples, edits)| >= 1
    decreases |edits|
  {
    if edits != [] {
      var next := if Offered(examples, edits[0]) then Apply(examples, edits[0]) else examples;
      assert |next| >= 1 by {
        match edits[0]
        case AddExample =>
        case RemoveExample(i) =>
        case SetInput(i, v) =>
        case SetOutput(i, v) =>
        case ResetExamples =>
      }
      OfferedEditsKeepAnExample(next, edits[1..]);
    }
  }

  /** The state of one mounted training panel. */
  class TrainingPanel {
    var customPrompt: string
    var useCustomPrompt: bool
    var examples: seq<Example>

    /** Lines 27-31: no custom prompt, switch off, one empty example. */
    constructor ()
      ensures customPrompt == "" && !useCustomPrompt && examples == [EmptyExample]
    {
      customPrompt := "";
      useCustomPrompt := false;
      examples := [EmptyExample];
    }

    method HandleAddExample()
      modifies this
      ensures examples == Apply(old(examples), AddExample)
      ensures |examples| == |old(examples)| + 1 && examples[..|old(examples)|] == old(examples)
      ensures customPrompt == old(customPrompt) && useCustomPrompt == old(useCustomPrompt)
    {
      examples := examples + [EmptyExample];
    }

    method HandleRemoveExample(index: int)
      modifies this
      ensures examples == Apply(old(examples), RemoveExample(index))
      ensures customPrompt == old(customPrompt) && useCustomPrompt == old(useCustomPrompt)
    {
      var newExamples := examples;
      newExamples := Spliced(newExamples, index);
      examples := newExamples;
    }

    /** Returns false where the source throws: there is no example at `index`. */
    method HandleExampleInputChange(index: int, value: string) returns (ok: bool)
      modifies this
      ensures ok <==> 0 <= index < |old(examples)|
      ensures examples == Apply(old(examples), SetInput(index, value))
      ensures customPrompt == old(customPrompt) && useCustomPrompt == old(useCustomPrompt)
    {
      if !(0 <= index < |examples|) {
        return false;
      }
      var newExamples := examples;
      newExamples := newExamples[index := newExamples[index].(input := value)];
      examples := newExamples;
      ok := true;
    }

    /** Returns false where the source throws: there is no example at `index`. */
    method HandleExampleOutputChange(index: int, value: string) returns (ok: bool)
      modifies this
      ensures ok <==> 0 <= index < |old(examples)|
      ensures examples == Apply(old(examples), SetOutput(index, value))
      ensures customPrompt == old(customPrompt) && useCustomPrompt == old(useCustomPrompt)
    {
      if !(0 <= index < |examples|) {
        return false;
      }
      var newExamples := examples;
      newExamples := newExamples[index := newExamples[index].(output := value)];
      examples := newExamples;
      ok := true;
    }

    method HandleReset()
      modifies this
      ensures customPrompt == "" && !useCustomPrompt && examples == Apply(old(examples), ResetExamples)
    {
      customPrompt := "";
      useCustomPrompt := false;
      examples := [EmptyExample];
    }

    /** The prompt text area's change handler. */
    method SetCustomPrompt(value: string)
      modifies this
      ensures customPrompt == value && useCustomPrompt == old(useCustomPrompt) && examples == old(examples)
    {
      customPrompt := value;
    }

    /** The switch's change handler. */
    method SetUseCustomPrompt(value: bool)
      modifies this
      ensures useCustomPrompt == value && customPrompt == old(customPrompt) && examples == old(examples)
    {
      useCustomPrompt := value;
    }

    /** Hands the current state over as it is. */
    method HandleSave() returns (config: TrainingConfig)
      ensures config.customPrompt == customPrompt
      ensures config.examples == examples
      ensures config.useCustomPrompt == useCustomPrompt
    {
      config := TrainingConfig(customPrompt, examples, useCustomPrompt);
    }
  }
}
