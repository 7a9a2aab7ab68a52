/**
 * The government proposal wizard (src/pages/GovernmentSubmit.tsx): the
 * `formData` record split into its text fields and its string lists, the
 * `new*` input boxes that feed the lists, and `currentStep`.
 */
module GovernmentSubmit {

  import opened Text
  import FormLists

  /** The string-list fields of `formData`. */
  datatype ListField =
    | Requirements | TechnicalSpecs | Deliverables | SuccessCriteria
    | Constraints | SupportDocuments | ImplementationPhases | Stakeholders

  const AllLists: set<ListField> :=
    {Requirements, TechnicalSpecs, Deliverables, SuccessCriteria,
     Constraints, SupportDocuments, ImplementationPhases, Stakeholders}

  /** The lists that have an input box of their own (`newRequirement`, `newPhase`, ...); supporting documents have none. */
  const InputLists: set<ListField> := AllLists - {SupportDocuments}

  /** The initial text fields of `formData`. */
  function InitialText(): map<string, string> {
    map["title" := "", "titleAm" := "", "description" := "", "descriptionAm" := "",
        "category" := "", "budget" := "", "timeline" := "", "priority" := "medium",
        "department" := "", "contactPerson" := "", "contactEmail" := "", "contactPhone" := "",
        "targetUsers" := "", "expectedBenefits" := "", "riskAssessment" := "",
        "maintenanceNeeds" := "", "integrationRequirements" := "", "securityRequirements" := "",
        "complianceNeeds" := "", "proposalType" := "new_system"]
  }

  class GovernmentSubmitForm {
    var text: map<string, string>
    var lists: map<ListField, seq<string>>
    var inputs: map<ListField, string>
    var currentStep: int

    /** Every list is present and clean, every input box exists, and the step is in 1..4. */
    ghost predicate Valid()
      reads this
    {
      (forall f :: f in lists)
      && (forall f :: f in inputs <==> f != SupportDocuments)
      && FormLists.AllClean(lists)
      && FormLists.StepInRange(currentStep)
    }

    constructor ()
      ensures text == InitialText()
      ensures lists == map f | f in AllLists :: []
      ensures inputs == map f | f in InputLists :: ""
      ensures currentStep == 1
      ensures Valid()
    {
      text := InitialText();
      forall f: ListField ensures f in AllLists {
        match f
        case Requirements =>
        case TechnicalSpecs =>
        case Deliverables =>
        case SuccessCriteria =>
        case Constraints =>
        case SupportDocuments =>
        case ImplementationPhases =>
        case Stakeholders =>
      }
      lists := map f | f in AllLists :: [];
      inputs := map f | f in InputLists :: "";
      currentStep := 1;
    }

    /** `handleInputChange`: `{ ...prev, [name]: value }` on the text fields. */
    method HandleInputChange(name: string, value: string)
      modifies this
      ensures text == old(text)[name := value]
      ensures lists == old(lists) && inputs == old(inputs) && currentStep == old(currentStep)
    {
      text := text[name := value];
    }

    /** Typing into a list's input box (`setNewRequirement(e.target.value)` and its siblings). */
    method SetInput(field: ListField, value: string)
      requires field in InputLists
      requires Valid()
      modifies this
      ensures Valid()
      ensures inputs == old(inputs)[field := value]
      ensures text == old(text) && lists == old(lists) && currentStep == old(currentStep)
    {
      inputs := inputs[field := value];
    }

    /**
     * `addToArray(field, newX, setNewX)`: the list's add rule applied to its
     * input box; no other field changes.
     */
    method AddToArray(field: ListField)
      requires field in InputLists
      requires Valid()
      modifies this
      ensures Valid()
      ensures lists == old(lists)[field := FormLists.AddEntry(old(lists)[field], old(inputs)[field]).list]
      ensures inputs == old(inputs)[field := FormLists.AddEntry(old(lists)[field], old(inputs)[field]).input]
      ensures text == old(text) && currentStep == old(currentStep)
    {
      var value := inputs[field];
      var current := lists[field];
      var r := FormLists.AddEntry(current, value);
      FormLists.AddKeepsAllClean(lists, field, value);
      lists := lists[field := r.list];
      inputs := inputs[field := r.input];
    }

    /** `removeFromArray(field, v)`: every entry equal to `v` goes, the rest keep their order. */
    method RemoveFromArray(field: ListField, v: string)
      requires Valid()
      modifies this
      ensures Valid()
      ensures lists == old(lists)[field := FormLists.RemoveAll(old(lists)[field], v)]
      ensures text == old(text) && inputs == old(inputs) && currentStep == old(currentStep)
    {
      FormLists.RemoveKeepsClean(lists[field], v);
      FormLists.UpdateKeepsClean(lists, field, FormLists.RemoveAll(lists[field], v));
      lists := lists[field := FormLists.RemoveAll(lists[field], v)];
    }

    /** `nextStep`: forward only below the last step. */
    method NextStep()
      requires Valid()
      modifies this
      ensures Valid()
      ensures currentStep == if old(currentStep) < FormLists.LastStep then old(currentStep) + 1 else old(currentStep)
      ensures text == old(text) && lists == old(lists) && inputs == old(inputs)
    {
      if currentStep < 4 {
        currentStep := currentStep + 1;
      }
    }

    /** `prevStep`: back only above the first step. */
    method PrevStep()
      requires Valid()
      modifies this
      ensures Valid()
      ensures currentStep == if old(currentStep) > FormLists.FirstStep then old(currentStep) - 1 else old(currentStep)
      ensures text == old(text) && lists == old(lists) && inputs == old(inputs)
    {
      if currentStep > 1 {
        currentStep := currentStep - 1;
      }
    }
  }
}
