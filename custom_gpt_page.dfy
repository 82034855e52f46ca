/** The custom-assistant list page (src/pages/CustomGPT.tsx): the list of
    assistants, deletion after a confirmation, and two display rules. The
    browser's `confirm` answer is a parameter. */
module CustomGptPage {
  import opened Sequences

  datatype CustomGpt = CustomGpt(
    id: string,
    name: string,
    description: string,
    createdAt: int,
    instructions: string,
    fileCount: nat)

  /** Milliseconds in a day. */
  const Day := 24 * 60 * 60 * 1000

  /** The texts of the two assistants the page starts with. */
  const MarketingExpertTexts: seq<string> := [
    "Marketing Expert",
    "Specialized in digital marketing strategies",
    "You are a marketing expert specialized in social media marketing. Help create compelling content strategies..."
  ]
  const DataAnalystTexts: seq<string> := [
    "Data Analyst",
    "Helps analyze and visualize data",
    "You are a data analyst with expertise in data visualization and statistical analysis..."
  ]

  /** The list the page starts with, relative to the clock reading `now`. */
  function InitialCustomGpts(now: int): (gpts: seq<CustomGpt>)
    ensures |gpts| == 2 && gpts[0].id == "1" && gpts[1].id == "2"
    ensures gpts[0].createdAt == now - 3 * Day && gpts[1].createdAt == now - 7 * Day
    ensures gpts[0].fileCount == 2 && gpts[1].fileCount == 5
  {
    [ CustomGpt("1", MarketingExpertTexts[0], MarketingExpertTexts[1], now - 3 * Day, MarketingExpertTexts[2], 2),
      CustomGpt("2", DataAnalystTexts[0], DataAnalystTexts[1], now - 7 * Day, DataAnalystTexts[2], 5) ]
  }

  /** The filter predicate `gpt => gpt.id !== id`. */
  function IdIsNot(id: string): CustomGpt -> bool
  {
    (g: CustomGpt) => g.id != id
  }

  /** `prev.filter(gpt => gpt.id !== id)`: every entry with that id goes,
      every other entry stays; with no such entry the list is unchanged. */
  function WithoutId(gpts: seq<CustomGpt>, id: string): (r: seq<CustomGpt>)
    ensures forall i :: 0 <= i < |r| ==> r[i].id != id && r[i] in gpts
    ensures forall i :: 0 <= i < |gpts| && gpts[i].id != id ==> gpts[i] in r
    ensures (forall i :: 0 <= i < |gpts| ==> gpts[i].id != id) ==> r == gpts
  {
    var r := Filter(gpts, IdIsNot(id));
    if forall i :: 0 <= i < |gpts| ==> gpts[i].id != id then
      FilterKeepsAll(gpts, IdIsNot(id));
      r
    else r
  }

  /** Deletion keeps the survivors in their original order: it distributes
      over any split of the list. */
  lemma DeleteKeepsOrder(a: seq<CustomGpt>, b: seq<CustomGpt>, id: string)
    ensures WithoutId(a + b, id) == WithoutId(a, id) + WithoutId(b, id)
  {
    FilterConcat(a, b, IdIsNot(id));
  }

  /** Deletion removes every copy of an entry with that id and keeps every
      copy of every other entry. */
  lemma DeleteCounts(gpts: seq<CustomGpt>, id: string, g: CustomGpt)
    ensures multiset(WithoutId(gpts, id))[g] == if g.id == id then 0 else multiset(gpts)[g]
  {
    FilterMultiset(gpts, IdIsNot(id), g);
  }

  /** `{gpt.fileCount === 1 ? 'file' : 'files'}` */
  function FileLabel(fileCount: int): (word: string)
    ensures word == "file" <==> fileCount == 1
    ensures word != "file" ==> word == "files"
  {
    if fileCount == 1 then "file" else "files"
  }

  class PageState {
    var customGpts: seq<CustomGpt>
    var createDialogOpen: bool

    constructor (now: int)
      ensures customGpts == InitialCustomGpts(now) && !createDialogOpen
    {
      customGpts := InitialCustomGpts(now);
      createDialogOpen := false;
    }

    /** `handleDelete`: filters out the id once the user confirms; a
        declined confirmation changes nothing. */
    method HandleDelete(id: string, name: string, confirmed: bool)
      modifies this
      ensures customGpts == if confirmed then WithoutId(old(customGpts), id) else old(customGpts)
      ensures createDialogOpen == old(createDialogOpen)
    {
      if confirmed {
        customGpts := WithoutId(customGpts, id);
      }
    }

    /** The "New Custom GPT" buttons and the dialog's open-change callback. */
    method SetCreateDialogOpen(open: bool)
      modifies this
      ensures createDialogOpen == open && customGpts == old(customGpts)
    {
      createDialogOpen := open;
    }

    /** The empty-state block is shown exactly when no assistant is left. */
    predicate ShowEmptyState()
      reads this
      ensures ShowEmptyState() <==> customGpts == []
    {
      |customGpts| == 0
    }
  }

  /** Deleting from a two-entry list keeps exactly the entries whose id
      differs, in order. */
  lemma DeleteFromPair(x: CustomGpt, y: CustomGpt, id: string)
    ensures WithoutId([x, y], id) == (if x.id == id then [] else [x]) + (if y.id == id then [] else [y])
  {
    assert [x, y] == [x] + [y];
    DeleteKeepsOrder([x], [y], id);
    assert [y][1..] == [];
    assert [x][1..] == [];
  }

  /** Deleting one initial assistant keeps the other; deleting an unknown
      id keeps both. */
  lemma DeletingOneInitialEntry(now: int)
    ensures WithoutId(InitialCustomGpts(now), "1") == [InitialCustomGpts(now)[1]]
    ensures WithoutId(InitialCustomGpts(now), "2") == [InitialCustomGpts(now)[0]]
    ensures WithoutId(InitialCustomGpts(now), "3") == InitialCustomGpts(now)
  {
    var gpts := InitialCustomGpts(now);
    var x, y := gpts[0], gpts[1];
    assert gpts == [x, y];
    DeleteFromPair(x, y, "1");
    DeleteFromPair(x, y, "2");
    DeleteFromPair(x, y, "3");
  }

  /** Deleting both initial assistants, in either order, empties the list. */
  lemma DeletingInitialEntries(now: int)
    ensures WithoutId(WithoutId(InitialCustomGpts(now), "1"), "2") == []
    ensures WithoutId(WithoutId(InitialCustomGpts(now), "2"), "1") == []
  {
    var gpts := InitialCustomGpts(now);
    DeletingOneInitialEntry(now);
    assert WithoutId([gpts[1]], "2") == [] by {
      assert [gpts[1]][1..] == [];
    }
    assert WithoutId([gpts[0]], "1") == [] by {
      assert [gpts[0]][1..] == [];
    }
  }

  /** On a fresh page the empty state is hidden; a declined deletion keeps
      it hidden, and confirming the deletion of both assistants shows it. */
  method DeleteEverythingShowsEmptyState(now: int) returns (shownAtStart: bool, shownAfterDecline: bool, shownAtEnd: bool)
    ensures !shownAtStart && !shownAfterDecline && shownAtEnd
  {
    var page := new PageState(now);
    shownAtStart := page.ShowEmptyState();
    page.HandleDelete("2", DataAnalystTexts[0], false);
    shownAfterDecline := page.ShowEmptyState();
    page.HandleDelete("1", MarketingExpertTexts[0], true);
    page.HandleDelete("2", DataAnalystTexts[0], true);
    DeletingInitialEntries(now);
    shownAtEnd := page.ShowEmptyState();
  }
}
