/**
 * The dashboard's project editor (src/components/Dashboard/ProjectForm.tsx):
 * tags are edited as one comma-separated string, joined with ", " when a
 * project is loaded and split, trimmed and filtered when it is saved.
 */
module ProjectForm {

  import opened Common
  import opened Text
  import Seqs

  /** `formData`: every field as the inputs hold it, tags as one string. */
  datatype FormData = FormData(
    title: string,
    description: string,
    imageUrl: string,
    category: string,
    tags: string,
    status: string,
    fundingGoal: int,
    currentFunding: int,
    websiteUrl: string,
    githubUrl: string)

  /** The object handed to `onSave`: the form with the tags parsed into a list. */
  datatype Payload = Payload(
    title: string,
    description: string,
    imageUrl: string,
    category: string,
    tags: seq<string>,
    status: string,
    fundingGoal: int,
    currentFunding: int,
    websiteUrl: string,
    githubUrl: string)

  /** A stored project as the editor receives it; the optional columns may be missing. */
  datatype StoredProject = StoredProject(
    title: string,
    description: string,
    imageUrl: Option<string>,
    category: Option<string>,
    tags: Option<seq<string>>,
    status: Option<string>,
    fundingGoal: Option<int>,
    currentFunding: Option<int>,
    websiteUrl: Option<string>,
    githubUrl: Option<string>)

  const DefaultCategory := "technology"
  const DefaultStatus := "active"
  const TitleRequired := "Project title is required"
  const SaveFailed := "Failed to save project"

  /** The input names the form has fields for. */
  const FieldNames: set<string> :=
    {"title", "description", "image_url", "category", "tags", "status",
     "funding_goal", "current_funding", "website_url", "github_url"}

  /** A tag as the parser leaves it: non-empty, trimmed, without a comma. */
  predicate IsTag(t: string) {
    t != [] && IsTrimmed(t) && ',' !in t
  }

  function TrimAll(parts: seq<string>): (r: seq<string>)
    ensures |r| == |parts|
    ensures forall i :: 0 <= i < |r| ==> r[i] == Trim(parts[i])
  {
    Seqs.Map(parts, Trim)
  }

  function NonEmpty(t: string): bool {
    |t| > 0
  }

  /** `tags.split(',').map(tag => tag.trim()).filter(tag => tag.length > 0)`. */
  function ParseTags(s: string): (r: seq<string>)
    ensures forall i :: 0 <= i < |r| ==> IsTag(r[i])
    ensures Seqs.SubseqOf(r, TrimAll(Split(s, ',')))
    ensures forall t :: multiset(r)[t] == if t != [] then multiset(TrimAll(Split(s, ',')))[t] else 0
  {
    var trimmed := TrimAll(Split(s, ','));
    TrimmedPieces(Split(s, ','));
    KeptPiecesAreTags(trimmed);
    KeptPiecesCount(trimmed);
    Seqs.Filter(trimmed, NonEmpty)
  }

  /** The filter keeps every non-empty piece as often as it occurs, and no empty one. */
  lemma KeptPiecesCount(trimmed: seq<string>)
    ensures forall t :: multiset(Seqs.Filter(trimmed, NonEmpty))[t] == if t != [] then multiset(trimmed)[t] else 0
  {
    forall t ensures multiset(Seqs.Filter(trimmed, NonEmpty))[t] == if t != [] then multiset(trimmed)[t] else 0 {
      assert NonEmpty(t) <==> t != [];
    }
  }

  lemma KeptPiecesAreTags(trimmed: seq<string>)
    requires forall t :: t in trimmed ==> IsTrimmed(t) && ',' !in t
    ensures forall i :: 0 <= i < |Seqs.Filter(trimmed, NonEmpty)| ==> IsTag(Seqs.Filter(trimmed, NonEmpty)[i])
  {
    var r := Seqs.Filter(trimmed, NonEmpty);
    forall i | 0 <= i < |r| ensures IsTag(r[i]) {
      assert r[i] in r;
      assert r[i] in trimmed && NonEmpty(r[i]);
    }
  }

  /** No non-empty piece is dropped: the parse keeps exactly the pieces that are not blank. */
  lemma ParseKeepsEveryPiece(s: string)
    ensures forall t :: t in ParseTags(s) <==> t in TrimAll(Split(s, ',')) && t != []
  {
  }

  /** Trimmed comma-free pieces are trimmed and comma-free. */
  lemma TrimmedPieces(pieces: seq<string>)
    requires forall i :: 0 <= i < |pieces| ==> ',' !in pieces[i]
    ensures forall t :: t in TrimAll(pieces) ==> IsTrimmed(t) && ',' !in t
  {
    var trimmed := TrimAll(pieces);
    forall i | 0 <= i < |trimmed| ensures IsTrimmed(trimmed[i]) && ',' !in trimmed[i] {
      TrimIsTrimmed(pieces[i]);
      TrimKeepsOut(pieces[i], ',');
    }
  }

  /** `tags.join(', ')`. */
  function JoinTags(tags: seq<string>): string {
    Join(tags, ", ")
  }

  /** `trim` only removes characters, so one the input lacks is not in the result. */
  lemma TrimKeepsOut(s: string, c: char)
    requires c !in s
    ensures c !in Trim(s)
  {
    var t := TrimStart(s);
    var r := TrimEnd(t);
    assert forall i :: 0 <= i < |r| ==> r[i] == t[i];
    assert forall i :: 0 <= i < |t| ==> t[i] == s[|s| - |t| + i];
  }

  lemma EmptyParsesToNothing()
    ensures ParseTags("") == []
  {
    assert Split("", ',') == [[]];
    var r := ParseTags("");
    assert forall t :: t != [] ==> multiset(TrimAll([[]]))[t] == 0 by {
      assert TrimAll([[]]) == [Trim([])];
      assert Trim([]) == [];
    }
    assert multiset(r) == multiset{};
    assert |r| == |multiset(r)|;
  }

  /** A tag behind a pad of zero or one space has no comma and trims back to the tag. */
  lemma PaddedTag(t: string, pad: string)
    requires IsTag(t)
    requires pad == "" || pad == " "
    ensures ',' !in pad + t && Trim(pad + t) == t
  {
    TrimmedIsFixed(t);
    if pad == " " {
      TrimLeadingSpace(t);
      assert pad + t == [' '] + t;
    } else {
      assert pad + t == t;
    }
  }

  /** `pad + join(ts)` splits at its first comma into the padded first tag and `" " + join(rest)`. */
  lemma SplitFirstTag(ts: seq<string>, pad: string)
    requires |ts| > 1 && ',' !in pad + ts[0]
    ensures Split(pad + JoinTags(ts), ',') == [pad + ts[0]] + Split(" " + JoinTags(ts[1..]), ',')
  {
    assert JoinTags(ts) == ts[0] + ", " + JoinTags(ts[1..]);
    assert pad + JoinTags(ts) == (pad + ts[0]) + [','] + (" " + JoinTags(ts[1..]));
    SplitAtSeparator(pad + ts[0], ',', " " + JoinTags(ts[1..]));
  }

  /** The pieces of `pad + join(ts, ", ")`, once trimmed, are the tags, for a pad of zero or one space. */
  lemma {:induction false} SplitJoined(ts: seq<string>, pad: string)
    requires ts != []
    requires forall i :: 0 <= i < |ts| ==> IsTag(ts[i])
    requires pad == "" || pad == " "
    ensures TrimAll(Split(pad + JoinTags(ts), ',')) == ts
    decreases |ts|
  {
    PaddedTag(ts[0], pad);
    if |ts| == 1 {
      assert pad + JoinTags(ts) == pad + ts[0];
      SplitNoSeparator(pad + ts[0], ',');
      Seqs.MapCons(pad + ts[0], [], Trim);
    } else {
      SplitFirstTag(ts, pad);
      SplitJoined(ts[1..], " ");
      TrimFirstPiece(ts, pad + ts[0], Split(" " + JoinTags(ts[1..]), ','));
    }
  }

  /** Trimming a first piece that trims to the first tag, ahead of pieces that trim to the rest, gives the tags. */
  lemma TrimFirstPiece(ts: seq<string>, first: string, rest: seq<string>)
    requires ts != [] && Trim(first) == ts[0] && TrimAll(rest) == ts[1..]
    ensures TrimAll([first] + rest) == ts
  {
    var l := TrimAll([first] + rest);
    forall i | 0 <= i < |ts| ensures l[i] == ts[i] {
      if i > 0 {
        assert ([first] + rest)[i] == rest[i - 1];
        assert TrimAll(rest)[i - 1] == ts[i];
      }
    }
  }

  /** Round trip: parsing the joined tags gives the tags back when each is non-empty, trimmed and comma-free. */
  lemma ParseJoin(ts: seq<string>)
    requires forall i :: 0 <= i < |ts| ==> IsTag(ts[i])
    ensures ParseTags(JoinTags(ts)) == ts
  {
    if ts == [] {
      EmptyParsesToNothing();
    } else {
      SplitJoined(ts, "");
      assert "" + JoinTags(ts) == JoinTags(ts);
      Seqs.FilterKeepsAll(ts, NonEmpty);
    }
  }

  /** Saving what was loaded is stable: parse, join and parse again gives the first parse. */
  lemma ParseIsStable(s: string)
    ensures ParseTags(JoinTags(ParseTags(s))) == ParseTags(s)
  {
    ParseJoin(ParseTags(s));
  }

  /** The fields the form starts with and returns to when opened with no project. */
  function Defaults(): (f: FormData)
    ensures f.category == DefaultCategory && f.status == DefaultStatus
    ensures f.fundingGoal == 0 && f.currentFunding == 0
    ensures f.title == [] && f.description == [] && f.tags == [] && f.imageUrl == []
    ensures f.websiteUrl == [] && f.githubUrl == []
  {
    FormData("", "", "", DefaultCategory, "", DefaultStatus, 0, 0, "", "")
  }

  /** A column's value, or the default when it is missing or empty (`x || d`). */
  function OrDefault(o: Option<string>, d: string): (r: string)
    ensures Present(o) ==> r == o.value
    ensures !Present(o) ==> r == d
  {
    if Present(o) then o.value else d
  }

  /** The form filled from a stored project, with the defaults for what is missing. */
  function FromProject(p: StoredProject): (f: FormData)
    ensures f.title == p.title && f.description == p.description
    ensures f.imageUrl == OrDefault(p.imageUrl, "")
    ensures f.websiteUrl == OrDefault(p.websiteUrl, "") && f.githubUrl == OrDefault(p.githubUrl, "")
    ensures f.tags == if p.tags.Some? then JoinTags(p.tags.value) else []
    ensures f.category == OrDefault(p.category, DefaultCategory)
    ensures f.status == OrDefault(p.status, DefaultStatus)
    ensures f.fundingGoal == p.fundingGoal.GetOr(0) && f.currentFunding == p.currentFunding.GetOr(0)
  {
    FormData(
      p.title,
      p.description,
      OrDefault(p.imageUrl, ""),
      OrDefault(p.category, DefaultCategory),
      if p.tags.Some? then JoinTags(p.tags.value) else "",
      OrDefault(p.status, DefaultStatus),
      p.fundingGoal.GetOr(0),
      p.currentFunding.GetOr(0),
      OrDefault(p.websiteUrl, ""),
      OrDefault(p.githubUrl, ""))
  }

  /** The payload: every field as the form holds it, the tags parsed. */
  function PayloadOf(f: FormData): (p: Payload)
    ensures p.tags == ParseTags(f.tags)
    ensures p.title == f.title && p.description == f.description && p.imageUrl == f.imageUrl
    ensures p.category == f.category && p.status == f.status
    ensures p.fundingGoal == f.fundingGoal && p.currentFunding == f.currentFunding
    ensures p.websiteUrl == f.websiteUrl && p.githubUrl == f.githubUrl
  {
    Payload(f.title, f.description, f.imageUrl, f.category, ParseTags(f.tags), f.status,
            f.fundingGoal, f.currentFunding, f.websiteUrl, f.githubUrl)
  }

  /**
   * Editing a project and saving it unchanged sends its tags back as they
   * were stored; a project without tags loads an empty field and saves none.
   */
  lemma LoadThenSaveKeepsTags(p: StoredProject)
    requires p.tags.Some? ==> forall i :: 0 <= i < |p.tags.value| ==> IsTag(p.tags.value[i])
    ensures PayloadOf(FromProject(p)).tags == p.tags.GetOr([])
  {
    if p.tags.Some? {
      ParseJoin(p.tags.value);
    } else {
      EmptyParsesToNothing();
    }
  }

  /** How `onSave` settles: it resolves, or rejects with an Error's message or with some other value. */
  datatype SaveOutcome = Saved | RejectedWithError(message: string) | RejectedOther

  class ProjectFormState {
    var formData: FormData
    var error: string
    var isLoading: bool

    constructor ()
      ensures formData == Defaults() && error == [] && !isLoading
    {
      formData := Defaults();
      error := "";
      isLoading := false;
    }

    /** The load effect: the project's fields or the defaults, and the error cleared. */
    method Load(project: Option<StoredProject>)
      modifies this
      ensures project.None? ==> formData == Defaults()
      ensures project.Some? ==> formData == FromProject(project.value)
      ensures error == [] && isLoading == old(isLoading)
    {
      if project.Some? {
        formData := FromProject(project.value);
      } else {
        formData := Defaults();
      }
      error := "";
    }

    /**
     * `handleChange`: a text input stores its value; the two amount inputs
     * store `parseFloat(value) || 0`, where `parsed` is what `parseFloat`
     * gave (`None` for NaN). A name the form has no field for changes nothing.
     */
    method HandleChange(name: string, value: string, parsed: Option<int>)
      modifies this
      ensures name == "title" ==> formData == old(formData).(title := value)
      ensures name == "description" ==> formData == old(formData).(description := value)
      ensures name == "image_url" ==> formData == old(formData).(imageUrl := value)
      ensures name == "category" ==> formData == old(formData).(category := value)
      ensures name == "tags" ==> formData == old(formData).(tags := value)
      ensures name == "status" ==> formData == old(formData).(status := value)
      ensures name == "website_url" ==> formData == old(formData).(websiteUrl := value)
      ensures name == "github_url" ==> formData == old(formData).(githubUrl := value)
      ensures name == "funding_goal" ==> formData == old(formData).(fundingGoal := parsed.GetOr(0))
      ensures name == "current_funding" ==> formData == old(formData).(currentFunding := parsed.GetOr(0))
      ensures name !in FieldNames ==> formData == old(formData)
      ensures error == old(error) && isLoading == old(isLoading)
    {
      match name
      case "title" => formData := formData.(title := value);
      case "description" => formData := formData.(description := value);
      case "image_url" => formData := formData.(imageUrl := value);
      case "category" => formData := formData.(category := value);
      case "tags" => formData := formData.(tags := value);
      case "status" => formData := formData.(status := value);
      case "website_url" => formData := formData.(websiteUrl := value);
      case "github_url" => formData := formData.(githubUrl := value);
      case "funding_goal" => formData := formData.(fundingGoal := parsed.GetOr(0));
      case "current_funding" => formData := formData.(currentFunding := parsed.GetOr(0));
      case _ =>
    }

    /**
     * `handleSubmit`: a blank title is refused before `onSave`; otherwise the
     * payload goes to `onSave` and a rejection sets the error. Returns the
     * payload `onSave` received, if it was called.
     */
    method HandleSubmit(outcome: SaveOutcome) returns (saved: Option<Payload>)
      modifies this
      ensures IsBlank(formData.title) ==> saved == None && error == TitleRequired
      ensures !IsBlank(formData.title) ==> saved == Some(PayloadOf(formData))
      ensures !IsBlank(formData.title) && outcome.Saved? ==> error == []
      ensures !IsBlank(formData.title) && outcome.RejectedWithError? ==> error == outcome.message
      ensures !IsBlank(formData.title) && outcome.RejectedOther? ==> error == SaveFailed
      ensures !isLoading && formData == old(formData)
    {
      isLoading := true;
      error := "";
      saved := None;
      if Trim(formData.title) == [] {
        error := TitleRequired;
      } else {
        var tags := ParseTags(formData.tags);
        saved := Some(Payload(formData.title, formData.description, formData.imageUrl, formData.category,
                              tags, formData.status, formData.fundingGoal, formData.currentFunding,
                              formData.websiteUrl, formData.githubUrl));
        match outcome
        case Saved =>
        case RejectedWithError(m) => error := m;
        case RejectedOther => error := SaveFailed;
      }
      isLoading := false;
    }
  }
}
