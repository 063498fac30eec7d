/** Pending children of a project being edited: technology names typed into the form and
    screenshot files chosen in it, neither created on the server yet. Drafts are appended
    as they are entered and removed by name (technologies) or by image (screenshots). */
module Drafts {
  import opened Base
  import opened Entities
  import opened Associations

  /** A technology typed into the form: `Omit<Technology, '_id'>`. */
  datatype TechnologyDraft = TechnologyDraft(name: string)

  /** A screenshot chosen in the form: `Omit<Screenshot, '_id'>` as the form builds it,
      which carries the image and nothing else. */
  datatype ScreenshotDraft = ScreenshotDraft(image: Image)

  /** A key press in the new-technology input. Enter appends the typed text as a draft,
      whatever it is (an empty name or a repeated one included); any other key changes nothing. */
  function OnTechnologyKey(drafts: seq<TechnologyDraft>, key: string, typed: string): (r: seq<TechnologyDraft>)
    ensures key == "Enter" ==> |r| == |drafts| + 1 && r[..|drafts|] == drafts && r[|drafts|].name == typed
    ensures key != "Enter" ==> r == drafts
  {
    if key == "Enter" then drafts + [TechnologyDraft(typed)] else drafts
  }

  /** `===` as the technology-draft checkbox applies it: by name. */
  function SameName(a: TechnologyDraft, b: TechnologyDraft): bool {
    a.name == b.name
  }

  /** A change on the checkbox shown for draft `shown`. A change that leaves it checked is
      ignored; unchecking it drops every draft with the same name. */
  function OnTechnologyDraftChange(drafts: seq<TechnologyDraft>, shown: TechnologyDraft, checked: bool)
    : (r: seq<TechnologyDraft>)
    ensures checked ==> r == drafts
    ensures !checked ==> forall d :: d in r <==> d in drafts && d.name != shown.name
    ensures !checked ==> forall d :: multiset(r)[d] == if d.name != shown.name then multiset(drafts)[d] else 0
  {
    FilterCounts(drafts, Differs(shown, SameName));
    if checked then drafts else Without(drafts, shown, SameName)
  }

  /** The file input's change: the first chosen file becomes a new draft; with no file the
      draft's image is the empty string. */
  function OnScreenshotChosen(drafts: seq<ScreenshotDraft>, chosen: Option<FileHandle>): (r: seq<ScreenshotDraft>)
    ensures |r| == |drafts| + 1 && r[..|drafts|] == drafts
    ensures chosen.Some? ==> r[|drafts|].image == Upload(chosen.value)
    ensures chosen.None? ==> r[|drafts|].image == Url("")
  {
    drafts + [ScreenshotDraft(if chosen.Some? then Upload(chosen.value) else Url(""))]
  }

  /** `===` as the screenshot-draft checkbox applies it: files by identity, strings by value. */
  function SameImage(a: ScreenshotDraft, b: ScreenshotDraft): bool {
    a.image == b.image
  }

  /** Any change on the checkbox shown for draft `shown` drops every draft with the same image;
      unlike the technology drafts, the checkbox state is not consulted. */
  function OnScreenshotDraftChange(drafts: seq<ScreenshotDraft>, shown: ScreenshotDraft): (r: seq<ScreenshotDraft>)
    ensures forall d :: d in r <==> d in drafts && d.image != shown.image
    ensures forall d :: multiset(r)[d] == if d.image != shown.image then multiset(drafts)[d] else 0
    ensures |r| <= |drafts|
  {
    FilterCounts(drafts, Differs(shown, SameImage));
    Without(drafts, shown, SameImage)
  }

  /** Typing a name and then unchecking its draft leaves the drafts as unchecking alone
      would: the new draft and every earlier one with that name are gone. */
  lemma EnterThenUncheckTechnology(drafts: seq<TechnologyDraft>, typed: string)
    ensures OnTechnologyDraftChange(OnTechnologyKey(drafts, "Enter", typed), TechnologyDraft(typed), false)
         == OnTechnologyDraftChange(drafts, TechnologyDraft(typed), false)
  {
    var shown := TechnologyDraft(typed);
    FilterAppend(drafts, [shown], Differs(shown, SameName));
    assert [shown][1..] == [];
  }

  /** Removing a draft technology twice removes it once. */
  lemma UncheckTechnologyIdempotent(drafts: seq<TechnologyDraft>, shown: TechnologyDraft)
    ensures OnTechnologyDraftChange(OnTechnologyDraftChange(drafts, shown, false), shown, false)
         == OnTechnologyDraftChange(drafts, shown, false)
  {
    FilterIdempotent(drafts, Differs(shown, SameName));
  }

  /** Choosing a file and then removing its draft leaves the drafts as removing alone would. */
  lemma ChooseThenRemoveScreenshot(drafts: seq<ScreenshotDraft>, file: FileHandle)
    ensures OnScreenshotDraftChange(OnScreenshotChosen(drafts, Some(file)), ScreenshotDraft(Upload(file)))
         == OnScreenshotDraftChange(drafts, ScreenshotDraft(Upload(file)))
  {
    var shown := ScreenshotDraft(Upload(file));
    FilterAppend(drafts, [shown], Differs(shown, SameImage));
    assert [shown][1..] == [];
  }
}
