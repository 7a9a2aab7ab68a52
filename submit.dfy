/**
 * The product submission wizard (src/pages/Submit.tsx): `formData` split into
 * its text fields, its checkbox flags, the nested `socialLinks` record and
 * its three string lists; the `newTag` / `newTechStack` /
 * `newCollaboratorRole` boxes; `currentStep`; and the summary labels.
 */
module Submit {

  import opened Common
  import opened Text
  import FormLists

  /** The string lists the wizard edits. */
  datatype TagList = Tags | TechStack | CollaboratorRoles

  const AllTagLists: set<TagList> := {Tags, TechStack, CollaboratorRoles}

  function InitialText(): map<string, string> {
    map["title" := "", "titleAm" := "", "description" := "", "descriptionAm" := "",
        "category" := "", "website" := "", "github" := "", "image" := "",
        "fundingGoal" := "", "timeline" := "", "teamSize" := "1", "targetAudience" := "",
        "businessModel" := "", "currentStage" := "idea", "launchDate" := ""]
  }

  function InitialFlags(): map<string, bool> {
    map["isFunding" := false, "lookingForCollaborators" := false]
  }

  function InitialNested(): map<string, map<string, string>> {
    map["socialLinks" := map["twitter" := "", "linkedin" := "", "telegram" := "", "youtube" := ""]]
  }

  /** The record under `parent`, or the empty record that spreading `undefined` gives. */
  function Record(nested: map<string, map<string, string>>, parent: string): map<string, string> {
    if parent in nested then nested[parent] else map[]
  }

  /**
   * The target of a dotted input name: `const [parent, child] = name.split('.')`,
   * the first two pieces.
   */
  function DottedTarget(name: string): (r: (string, string))
    requires '.' in name
    ensures '.' !in r.0 && '.' !in r.1
  {
    SplitAtLeastTwo(name, '.');
    var parts := Split(name, '.');
    (parts[0], parts[1])
  }

  /** `socialLinks.twitter` and its siblings address the record and key either side of the dot. */
  lemma DottedTargetOfPair(parent: string, child: string)
    requires '.' !in parent && '.' !in child
    ensures '.' in parent + "." + child
    ensures DottedTarget(parent + "." + child) == (parent, child)
  {
    var name := parent + "." + child;
    assert name[|parent|] == '.';
    assert name == parent + ['.'] + child;
    SplitAtSeparator(parent, '.', child);
    SplitNoSeparator(child, '.');
  }

  class SubmitForm {
    var text: map<string, string>
    var flags: map<string, bool>
    var nested: map<string, map<string, string>>
    var lists: map<TagList, seq<string>>
    var inputs: map<TagList, string>
    var currentStep: int

    /** The three lists and their boxes exist, the lists are clean, and the step is in 1..4. */
    ghost predicate Valid()
      reads this
    {
      (forall f :: f in lists && f in inputs)
      && FormLists.AllClean(lists)
      && FormLists.StepInRange(currentStep)
    }

    constructor ()
      ensures text == InitialText() && flags == InitialFlags() && nested == InitialNested()
      ensures lists == map f | f in AllTagLists :: []
      ensures inputs == map f | f in AllTagLists :: ""
      ensures currentStep == 1
      ensures Valid()
    {
      text := InitialText();
      flags := InitialFlags();
      nested := InitialNested();
      forall f: TagList ensures f in AllTagLists {
        match f
        case Tags =>
        case TechStack =>
        case CollaboratorRoles =>
      }
      lists := map f | f in AllTagLists :: [];
      inputs := map f | f in AllTagLists :: "";
      currentStep := 1;
    }

    /**
     * `handleInputChange`: a checkbox stores its checked state; a dotted name
     * updates one key of the nested record; any other name sets its text field.
     */
    method HandleInputChange(name: string, value: string, isCheckbox: bool, checked: bool)
      modifies this
      ensures isCheckbox ==> flags == old(flags)[name := checked] && text == old(text) && nested == old(nested)
      ensures !isCheckbox && '.' in name ==>
                var (parent, child) := DottedTarget(name);
                nested == old(nested)[parent := Record(old(nested), parent)[child := value]]
                && text == old(text) && flags == old(flags)
      ensures !isCheckbox && '.' !in name ==> text == old(text)[name := value] && flags == old(flags) && nested == old(nested)
      ensures lists == old(lists) && inputs == old(inputs) && currentStep == old(currentStep)
    {
      if isCheckbox {
        flags := flags[name := checked];
      } else if '.' in name {
        var (parent, child) := DottedTarget(name);
        nested := nested[parent := Record(nested, parent)[child := value]];
      } else {
        text := text[name := value];
      }
    }

    /** Typing into `newTag`, `newTechStack` or `newCollaboratorRole`. */
    method SetInput(field: TagList, value: string)
      requires Valid()
      modifies this
      ensures Valid()
      ensures inputs == old(inputs)[field := value]
      ensures text == old(text) && flags == old(flags) && nested == old(nested)
      ensures lists == old(lists) && currentStep == old(currentStep)
    {
      inputs := inputs[field := value];
    }

    /** `addTag` / `addTechStack` / `addCollaboratorRole`: the list add rule on that list's box. */
    method Add(field: TagList)
      requires Valid()
      modifies this
      ensures Valid()
      ensures lists == old(lists)[field := FormLists.AddEntry(old(lists)[field], old(inputs)[field]).list]
      ensures inputs == old(inputs)[field := FormLists.AddEntry(old(lists)[field], old(inputs)[field]).input]
      ensures text == old(text) && flags == old(flags) && nested == old(nested) && currentStep == old(currentStep)
    {
      var r := FormLists.AddEntry(lists[field], inputs[field]);
      FormLists.AddKeepsAllClean(lists, field, inputs[field]);
      lists := lists[field := r.list];
      inputs := inputs[field := r.input];
    }

    /** `removeTag` / `removeTechStack` / `removeCollaboratorRole`. */
    method Remove(field: TagList, v: string)
      requires Valid()
      modifies this
      ensures Valid()
      ensures lists == old(lists)[field := FormLists.RemoveAll(old(lists)[field], v)]
      ensures text == old(text) && flags == old(flags) && nested == old(nested)
      ensures inputs == old(inputs) && currentStep == old(currentStep)
    {
      FormLists.RemoveKeepsClean(lists[field], v);
      FormLists.UpdateKeepsClean(lists, field, FormLists.RemoveAll(lists[field], v));
      lists := lists[field := FormLists.RemoveAll(lists[field], v)];
    }

    method NextStep()
      requires Valid()
      modifies this
      ensures Valid()
      ensures currentStep == if old(currentStep) < FormLists.LastStep then old(currentStep) + 1 else old(currentStep)
      ensures text == old(text) && flags == old(flags) && nested == old(nested)
      ensures lists == old(lists) && inputs == old(inputs)
    {
      if currentStep < 4 {
        currentStep := currentStep + 1;
      }
    }

    method PrevStep()
      requires Valid()
      modifies this
      ensures Valid()
      ensures currentStep == if old(currentStep) > FormLists.FirstStep then old(currentStep) - 1 else old(currentStep)
      ensures text == old(text) && flags == old(flags) && nested == old(nested)
      ensures lists == old(lists) && inputs == old(inputs)
    {
      if currentStep > 1 {
        currentStep := currentStep - 1;
      }
    }
  }

  /** A summary value, or 'Not set' when it is empty. */
  function OrNotSet(s: string): (r: string)
    ensures s != [] ==> r == s
    ensures s == [] ==> r == "Not set"
    ensures r != []
  {
    if s == [] then "Not set" else s
  }

  /** The stage choices, value and label, in the order the select lists them. */
  const Stages: seq<(string, string)> :=
    [("idea", "Idea Stage"), ("prototype", "Prototype"), ("mvp", "MVP"),
     ("beta", "Beta Testing"), ("launched", "Launched"), ("scaling", "Scaling")]

  /** `stages.find(s => s.value === currentStage)?.label`: nothing is shown for a value not in the list. */
  function StageLabel(currentStage: string): (r: Option<string>)
    ensures r.None? <==> forall i :: 0 <= i < |Stages| ==> Stages[i].0 != currentStage
    ensures r.Some? ==> exists i :: 0 <= i < |Stages| && Stages[i] == (currentStage, r.value)
  {
    StageFrom(Stages, currentStage)
  }

  function StageFrom(stages: seq<(string, string)>, value: string): (r: Option<string>)
    ensures r.None? <==> forall i :: 0 <= i < |stages| ==> stages[i].0 != value
    ensures r.Some? ==> exists i :: 0 <= i < |stages| && stages[i] == (value, r.value)
  {
    if stages == [] then None
    else if stages[0].0 == value then Some(stages[0].1)
    else
      var r := StageFrom(stages[1..], value);
      assert r.Some? ==> exists i :: 0 <= i < |stages[1..]| && stages[1..][i] == (value, r.value);
      if r.Some? then
        var i :| 0 <= i < |stages[1..]| && stages[1..][i] == (value, r.value);
        assert stages[i + 1] == (value, r.value);
        r
      else r
  }

  /** The initial stage 'idea' reads 'Idea Stage'. */
  lemma InitialStageLabel()
    ensures StageLabel(InitialText()["currentStage"]) == Some("Idea Stage")
  {
  }

  /** "`teamSize` member(s)": the plural unless the field is exactly '1'. */
  function TeamSizeLabel(teamSize: string): (r: string)
    ensures |r| > |teamSize| && r[..|teamSize|] == teamSize
    ensures r[|teamSize|..] == (if teamSize == "1" then " member" else " members")
  {
    teamSize + " member" + PluralSuffix(teamSize == "1")
  }

  /** "`n` tag(s)": singular only for exactly one tag. */
  function TagCountLabel(n: nat): (r: string)
    ensures r == NatToString(n) + (if n == 1 then " tag" else " tags")
  {
    NatToString(n) + " tag" + PluralSuffix(n == 1)
  }

  /** The funding line: '$' and the goal ('0' when empty) when funding is on, else 'Not enabled'. */
  function FundingLabel(isFunding: bool, fundingGoal: string): (r: string)
    ensures !isFunding <==> r == "Not enabled"
    ensures isFunding ==> r == "$" + (if fundingGoal == [] then "0" else fundingGoal)
  {
    if isFunding then
      var shown := "$" + (if fundingGoal == [] then "0" else fundingGoal);
      assert shown[0] != "Not enabled"[0];
      shown
    else "Not enabled"
  }

  /** The labels end in the plural 's' exactly when the count is not one. */
  lemma PluralOnlyWhenNotOne(teamSize: string, n: nat)
    ensures (TeamSizeLabel(teamSize)[|TeamSizeLabel(teamSize)| - 1] == 's') <==> teamSize != "1"
    ensures (TagCountLabel(n)[|TagCountLabel(n)| - 1] == 's') <==> n != 1
    ensures TagCountLabel(1) == "1 tag"
  {
    var t := TeamSizeLabel(teamSize);
    assert t[|teamSize|..][|t| - |teamSize| - 1] == t[|t| - 1];
    var c := TagCountLabel(n);
    assert c == NatToString(n) + (if n == 1 then " tag" else " tags");
    assert c[|c| - 1] == (if n == 1 then " tag" else " tags")[|(if n == 1 then " tag" else " tags")| - 1];
    assert NatToString(1) == "1";
  }
}
