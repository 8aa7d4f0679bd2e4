/**
 * The citizen's complaint form: the category table, the two word counts
 * (the one the submit handler tests and the one the button shows), the
 * record a successful submission builds and the portal state it updates.
 */
module UserPortal {
  import opened Wrappers
  import opened Text
  import opened Domain

  /** A selectable complaint category (its icon and colour are display only). */
  datatype Category = Category(id: string, labelText: string)

  const Categories: seq<Category> := [
    Category("road-safety", "Road Safety & Potholes"),
    Category("street-light", "Street Light"),
    Category("garbage", "Garbage Waste"),
    Category("traffic", "Traffic Problems"),
    Category("vendors", "Street Vendor Issues"),
    Category("missing-person", "Missing Person"),
    Category("public-safety", "Public Safety"),
    Category("infrastructure", "Infrastructure Issue")
  ]

  const DefaultTitle := "New Complaint"

  /** `categories.find(c => c.id === id)`: the first category with that id, if any. */
  function FindCategory(cats: seq<Category>, id: string): Option<Category>
    decreases |cats|
  {
    if cats == [] then None
    else if cats[0].id == id then Some(cats[0])
    else FindCategory(cats[1..], id)
  }

  /** The lookup finds nothing exactly when no category has the id, and otherwise the first one that has it. */
  lemma {:induction false} FindCategorySpec(cats: seq<Category>, id: string)
    ensures FindCategory(cats, id).None? <==> forall k :: 0 <= k < |cats| ==> cats[k].id != id
    ensures FindCategory(cats, id).Some? ==>
      exists k :: 0 <= k < |cats| && cats[k] == FindCategory(cats, id).value && cats[k].id == id &&
                  forall j :: 0 <= j < k ==> cats[j].id != id
    decreases |cats|
  {
    if cats != [] && cats[0].id != id {
      var r := FindCategory(cats[1..], id);
      FindCategorySpec(cats[1..], id);
      if r.Some? {
        var k :| 0 <= k < |cats[1..]| && cats[1..][k] == r.value && r.value.id == id &&
                 forall j :: 0 <= j < k ==> cats[1..][j].id != id;
        assert cats[k + 1] == r.value;
      } else {
        forall k | 0 <= k < |cats|
          ensures cats[k].id != id
        {
          if k > 0 {
            assert cats[k] == cats[1..][k - 1];
          }
        }
      }
    }
  }

  /** The new complaint's title under a category table: `find(...)?.label || 'New Complaint'`. */
  function TitleFor(cats: seq<Category>, selectedCategory: string): string {
    var found := FindCategory(cats, selectedCategory);
    if found.Some? && found.value.labelText != "" then found.value.labelText else DefaultTitle
  }

  function ComplaintTitle(selectedCategory: string): string {
    TitleFor(Categories, selectedCategory)
  }

  /** Every label is non-empty and no id is listed twice. */
  ghost predicate WellFormedTable(cats: seq<Category>) {
    && (forall k :: 0 <= k < |cats| ==> cats[k].labelText != "")
    && (forall i, j :: 0 <= i < j < |cats| ==> cats[i].id != cats[j].id)
  }

  /** Ids whose first letters are pairwise different are pairwise different. */
  lemma DistinctByInitials(cats: seq<Category>, initials: string)
    requires |initials| == |cats|
    requires forall i :: 0 <= i < |cats| ==> cats[i].id != "" && cats[i].id[0] == initials[i]
    requires forall i, j :: 0 <= i < j < |initials| ==> initials[i] != initials[j]
    ensures forall i, j :: 0 <= i < j < |cats| ==> cats[i].id != cats[j].id
  {
    forall i, j | 0 <= i < j < |cats|
      ensures cats[i].id != cats[j].id
    {
      assert cats[i].id[0] != cats[j].id[0];
    }
  }

  /** No two categories of the portal share an id: their first letters already differ. */
  lemma CategoryIdsDistinct(cats: seq<Category>)
    requires cats == Categories
    ensures forall i, j :: 0 <= i < j < |cats| ==> cats[i].id != cats[j].id
  {
    var initials := "rsgtvmpi";
    assert cats[0].id[0] == 'r' && cats[1].id[0] == 's' && cats[2].id[0] == 'g' && cats[3].id[0] == 't';
    assert cats[4].id[0] == 'v' && cats[5].id[0] == 'm' && cats[6].id[0] == 'p' && cats[7].id[0] == 'i';
    DistinctByInitials(cats, initials);
  }

  /** Every category of the portal has a label. */
  lemma CategoryLabelsNonEmpty(cats: seq<Category>)
    requires cats == Categories
    ensures forall k :: 0 <= k < |cats| ==> cats[k].labelText != ""
  {
  }

  lemma CategoriesWellFormed()
    ensures WellFormedTable(Categories)
  {
    CategoryIdsDistinct(Categories);
    CategoryLabelsNonEmpty(Categories);
  }

  /** With non-empty labels, the title is the label of the first category with the selected id, or the default when none matches. */
  lemma TitleForSpec(cats: seq<Category>, selectedCategory: string)
    requires forall k :: 0 <= k < |cats| ==> cats[k].labelText != ""
    ensures (exists k :: 0 <= k < |cats| && cats[k].id == selectedCategory &&
                         TitleFor(cats, selectedCategory) == cats[k].labelText)
         || ((forall k :: 0 <= k < |cats| ==> cats[k].id != selectedCategory) &&
             TitleFor(cats, selectedCategory) == DefaultTitle)
  {
    FindCategorySpec(cats, selectedCategory);
  }

  /** Selecting a listed category titles the complaint with that category's label. */
  lemma {:induction false} TitleForListed(cats: seq<Category>, k: nat)
    requires WellFormedTable(cats) && k < |cats|
    ensures TitleFor(cats, cats[k].id) == cats[k].labelText
  {
    var found := FindCategory(cats, cats[k].id);
    FindCategorySpec(cats, cats[k].id);
    var i :| 0 <= i < |cats| && cats[i] == found.value && found.value.id == cats[k].id &&
             forall j :: 0 <= j < i ==> cats[j].id != cats[k].id;
    assert i == k;
  }

  /** In the portal's table: a listed category's label, otherwise "New Complaint". */
  lemma ComplaintTitleSpec(selectedCategory: string)
    ensures forall k :: 0 <= k < |Categories| && Categories[k].id == selectedCategory ==>
              ComplaintTitle(selectedCategory) == Categories[k].labelText
    ensures (forall k :: 0 <= k < |Categories| ==> Categories[k].id != selectedCategory) ==>
              ComplaintTitle(selectedCategory) == DefaultTitle
  {
    CategoriesWellFormed();
    forall k | 0 <= k < |Categories| && Categories[k].id == selectedCategory
      ensures ComplaintTitle(selectedCategory) == Categories[k].labelText
    {
      TitleForListed(Categories, k);
    }
    TitleForSpec(Categories, selectedCategory);
  }

  const MinWords := 40

  /** The submit handler's count: `description.split(' ').length`, empty pieces included. */
  function RawPieceCount(description: string): nat {
    |SplitSpaces(description)|
  }

  /** The count the form displays and the button tests: pieces that are not empty. */
  function DisplayedWordCount(description: string): nat {
    NonEmptyCount(SplitSpaces(description))
  }

  /** The submit handler's gate: `split(' ').length < 40` rejects. */
  predicate DescriptionAccepted(description: string) {
    RawPieceCount(description) >= MinWords
  }

  /** The handler accepts a description exactly when it holds at least 39 space characters. */
  lemma DescriptionAcceptedIff(description: string)
    ensures DescriptionAccepted(description) <==> CountChar(description, ' ') >= MinWords - 1
  {
    SplitSpacesCount(description);
  }

  /** The submit button is enabled only when the handler will accept the description. */
  lemma ButtonEnabledImpliesAccepted(description: string)
    ensures DisplayedWordCount(description) <= RawPieceCount(description)
    ensures DisplayedWordCount(description) >= MinWords ==> DescriptionAccepted(description)
  {
  }

  /** The handler's own gate is weaker than the button's: 39 spaces and no words pass it. */
  lemma HandlerAcceptsWordlessDescription()
    ensures var blank := seq(MinWords - 1, _ => ' ');
            DescriptionAccepted(blank) && DisplayedWordCount(blank) == 0
  {
    var blank := seq(MinWords - 1, _ => ' ');
    DescriptionAcceptedIff(blank);
    SpacesCount(blank);
    SpacesSplitIntoEmptyPieces(blank);
  }

  lemma {:induction false} SpacesCount(s: string)
    requires forall i :: 0 <= i < |s| ==> s[i] == ' '
    ensures CountChar(s, ' ') == |s|
    decreases |s|
  {
    if s != [] {
      SpacesCount(s[1..]);
    }
  }

  lemma {:induction false} SpacesSplitIntoEmptyPieces(s: string)
    requires forall i :: 0 <= i < |s| ==> s[i] == ' '
    ensures NonEmptyCount(SplitSpaces(s)) == 0
    decreases |s|
  {
    if s != [] {
      SpacesSplitIntoEmptyPieces(s[1..]);
    }
  }

  /** The complaint form's state; `priority` is `None` until a priority is selected. */
  datatype ComplaintForm = ComplaintForm(
    streetName: string,
    location: string,
    description: string,
    priority: Option<Priority>,
    contactInfo: string,
    images: seq<string>)

  const EmptyComplaintForm := ComplaintForm("", "", "", None, "", [])

  /** The form's text inputs. */
  datatype FormField = StreetName | Location | Description | ContactInfo

  /** The record a successful submission appends; the clock readings are parameters. */
  function NewComplaint(form: ComplaintForm, selectedCategory: string, nowMillis: nat, nowIso: string): Complaint {
    Complaint(
      id := DecimalString(nowMillis),
      title := ComplaintTitle(selectedCategory),
      category := selectedCategory,
      description := form.description,
      location := form.streetName + ", " + form.location,
      priority := form.priority,
      status := Pending,
      dateCreated := nowIso,
      assignedEmployee := None,
      images := Some(form.images))
  }

  /**
   * The id shown to the citizen: "CC" and the last six digits of the clock
   * reading, or all of them when the reading has fewer.
   */
  function ShownComplaintId(nowMillis: nat): (r: string)
    ensures |r| >= 3 && r[..2] == "CC"
    ensures |r| == 2 + if |DecimalString(nowMillis)| < 6 then |DecimalString(nowMillis)| else 6
    ensures forall i :: 2 <= i < |r| ==> IsAsciiDigit(r[i])
    ensures r[2..] == DecimalString(nowMillis)[|DecimalString(nowMillis)| - (|r| - 2)..]
  {
    "CC" + SliceLast(DecimalString(nowMillis), 6)
  }

  /**
   * From a reading of 100000 on the shown id has eight characters; below it,
   * the whole reading follows the prefix.
   */
  lemma ShownComplaintIdLength(nowMillis: nat)
    ensures nowMillis >= 100000 ==> |ShownComplaintId(nowMillis)| == 8
    ensures nowMillis < 100000 ==> ShownComplaintId(nowMillis) == "CC" + DecimalString(nowMillis)
  {
    if nowMillis >= Pow10(5) {
      DecimalStringLength(nowMillis, 5);
    } else {
      DecimalStringShort(nowMillis, 5);
    }
  }

  /** The portal's state: the shared complaints list, the selected category and the form. */
  class Portal {
    var complaints: seq<Complaint>
    var selectedCategory: string
    var complaintForm: ComplaintForm

    /** The form's images are never set to anything but the empty list. */
    ghost predicate Valid()
      reads this
    {
      complaintForm.images == []
    }

    constructor(complaints: seq<Complaint>)
      ensures Valid()
      ensures this.complaints == complaints
      ensures selectedCategory == "" && complaintForm == EmptyComplaintForm
    {
      this.complaints := complaints;
      selectedCategory := "";
      complaintForm := EmptyComplaintForm;
    }

    /** `handleCategorySelect`, and the back button with `id == ""`. */
    method SelectCategory(id: string)
      modifies this
      ensures selectedCategory == id
      ensures complaints == old(complaints) && complaintForm == old(complaintForm)
    {
      selectedCategory := id;
    }

    /** A text input's change handler: `{ ...complaintForm, [field]: value }`. */
    method EditField(field: FormField, value: string)
      requires Valid()
      modifies this
      ensures Valid()
      ensures complaintForm == match field
        case StreetName => old(complaintForm).(streetName := value)
        case Location => old(complaintForm).(location := value)
        case Description => old(complaintForm).(description := value)
        case ContactInfo => old(complaintForm).(contactInfo := value)
      ensures complaints == old(complaints) && selectedCategory == old(selectedCategory)
    {
      match field
      case StreetName => complaintForm := complaintForm.(streetName := value);
      case Location => complaintForm := complaintForm.(location := value);
      case Description => complaintForm := complaintForm.(description := value);
      case ContactInfo => complaintForm := complaintForm.(contactInfo := value);
    }

    /** The priority select's change handler. */
    method SelectPriority(p: Priority)
      requires Valid()
      modifies this
      ensures Valid()
      ensures complaintForm == old(complaintForm).(priority := Some(p))
      ensures complaints == old(complaints) && selectedCategory == old(selectedCategory)
    {
      complaintForm := complaintForm.(priority := Some(p));
    }

    /**
     * `handleSubmitComplaint`. `idMillis` and `toastMillis` are the two
     * readings of the clock the handler takes, `nowIso` the creation date.
     * Returns the id shown to the citizen, or `None` when the description is
     * rejected.
     */
    method SubmitComplaint(idMillis: nat, nowIso: string, toastMillis: nat) returns (shownId: Option<string>)
      requires Valid()
      modifies this
      ensures Valid()
      ensures shownId.Some? <==> DescriptionAccepted(old(complaintForm).description)
      ensures shownId.None? ==>
        complaints == old(complaints) && complaintForm == old(complaintForm) &&
        selectedCategory == old(selectedCategory)
      ensures shownId.Some? ==>
        && complaints == old(complaints) + [NewComplaint(old(complaintForm), old(selectedCategory), idMillis, nowIso)]
        && complaintForm == EmptyComplaintForm
        && selectedCategory == ""
        && shownId.value == ShownComplaintId(toastMillis)
    {
      if RawPieceCount(complaintForm.description) < MinWords {
        return None;
      }
      var newComplaint := NewComplaint(complaintForm, selectedCategory, idMillis, nowIso);
      complaints := complaints + [newComplaint];
      var id := ShownComplaintId(toastMillis);
      complaintForm := EmptyComplaintForm;
      selectedCategory := "";
      shownId := Some(id);
    }
  }

  /**
   * What a successful submission does to the list: one more record, the old
   * ones untouched, and the new one pending, without images, located at
   * "street, location", with the form's description, the selected category
   * and an id that reads back as the clock value.
   */
  lemma SubmissionAppendsPendingRecord(
    before: seq<Complaint>, form: ComplaintForm, selectedCategory: string, idMillis: nat, nowIso: string)
    requires form.images == []
    ensures var after := before + [NewComplaint(form, selectedCategory, idMillis, nowIso)];
      && |after| == |before| + 1
      && after[..|before|] == before
      && after[|before|].status == Pending
      && after[|before|].images == Some([])
      && after[|before|].location == form.streetName + ", " + form.location
      && after[|before|].description == form.description
      && after[|before|].category == selectedCategory
      && DecimalValue(after[|before|].id) == idMillis
  {
    DecimalRoundTrip(idMillis);
  }
}
