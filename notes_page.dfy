/** The notes page: the search-and-type filter over the fetched notes, the
    plain-text export of all notes and of one note (secret notes masked), the
    download file name, and the precondition of the AI writer. */
module NotesPage {
  import opened Base
  import opened Text

  /** A note as the page holds it, with its creation time already rendered as
      text. */
  datatype Card = Card(id: int, title: string, content: string, isSecret: bool, kind: string, date: string)

  const FilterAll := "all"
  const FilterSecret := "secret"

  // ---------------------------------------------------------------------------
  // filteredNotes

  /** The lower-cased query occurs in the lower-cased title or content. */
  predicate MatchesSearch(search: string, c: Card) {
    Contains(Lower(c.title), Lower(search)) || Contains(Lower(c.content), Lower(search))
  }

  /** The type tab: everything, the notes of that type, or the secret notes. */
  predicate MatchesFilter(filter: string, c: Card) {
    filter == FilterAll || c.kind == filter || (filter == FilterSecret && c.isSecret)
  }

  predicate Shown(search: string, filter: string, c: Card) {
    MatchesSearch(search, c) && MatchesFilter(filter, c)
  }

  /** `filteredNotes`: the notes passing both tests, in list order. */
  function FilteredNotes(notes: seq<Card>, search: string, filter: string): (r: seq<Card>)
    ensures SubsequenceOf(r, notes)
    ensures forall c :: c in r <==> c in notes && MatchesSearch(search, c) && MatchesFilter(filter, c)
  {
    FilterIsSubsequence(notes, c => Shown(search, filter, c));
    Filter(notes, c => Shown(search, filter, c))
  }

  /** With an empty search and the `all` tab, every note is listed. */
  lemma FilteredNotesKeepsAll(notes: seq<Card>)
    ensures FilteredNotes(notes, "", FilterAll) == notes
  {
    forall c | c in notes ensures Shown("", FilterAll, c) {
      ContainsEmpty(Lower(c.title));
    }
    FilterKeepsAll(notes, c => Shown("", FilterAll, c));
  }

  // ---------------------------------------------------------------------------
  // Export

  const SecretTitle := "Secret Note (Encrypted)"
  const SecretBody := "[Encrypted Content]"
  const Rule := "-----------------------------------"

  /** The title an export shows: masked for a secret note. */
  function ShownTitle(c: Card): (t: string)
    ensures c.isSecret ==> t == SecretTitle
    ensures !c.isSecret ==> t == c.title
  {
    if c.isSecret then SecretTitle else c.title
  }

  /** The body an export shows: masked for a secret note. */
  function ShownBody(c: Card): (b: string)
    ensures c.isSecret ==> b == SecretBody
    ensures !c.isSecret ==> b == c.content
  {
    if c.isSecret then SecretBody else c.content
  }

  /** One note's block in the download-all file. */
  function ExportBlock(c: Card): string {
    Rule + "\nTitle: " + ShownTitle(c) + "\nDate: " + c.date + "\nType: " + c.kind + "\n" +
    Rule + "\n\n" + ShownBody(c) + "\n\n"
  }

  function Blocks(notes: seq<Card>): (r: seq<string>)
    ensures |r| == |notes|
    ensures forall i :: 0 <= i < |notes| ==> r[i] == ExportBlock(notes[i])
  {
    seq(|notes|, i requires 0 <= i < |notes| => ExportBlock(notes[i]))
  }

  /** `handleDownloadAll`: no file for an empty list; otherwise the blocks of
      the notes in list order, joined by a newline. */
  function ExportAll(notes: seq<Card>): (r: Option<string>)
    ensures r.None? <==> notes == []
  {
    if notes == [] then None else Some(Join(Blocks(notes), "\n"))
  }

  /** A single note exports as its own block. */
  lemma ExportOne(c: Card)
    ensures ExportAll([c]) == Some(ExportBlock(c))
  {
  }

  /** The export of a longer list is the export of its front, a newline, and the
      export of its back: one block per note, in list order. */
  lemma ExportAppend(a: seq<Card>, b: seq<Card>)
    requires a != [] && b != []
    ensures ExportAll(a + b) == Some(ExportAll(a).value + "\n" + ExportAll(b).value)
  {
    assert Blocks(a + b) == Blocks(a) + Blocks(b);
    JoinAppend(Blocks(a), Blocks(b), "\n");
  }

  /** The two notes agree on everything a masked view shows. */
  predicate SameMaskedView(c: Card, d: Card) {
    c.isSecret == d.isSecret && c.id == d.id && c.kind == d.kind && c.date == d.date &&
    (!c.isSecret ==> c.title == d.title && c.content == d.content)
  }

  /** The export never depends on a secret note's title or content: two lists
      that differ only there export the same text. */
  lemma ExportHidesSecrets(a: seq<Card>, b: seq<Card>)
    requires |a| == |b|
    requires forall i :: 0 <= i < |a| ==> SameMaskedView(a[i], b[i])
    ensures ExportAll(a) == ExportAll(b)
  {
    assert Blocks(a) == Blocks(b);
  }

  /** The single-note download file. */
  function NoteFile(c: Card): string {
    "Title: " + ShownTitle(c) + "\nDate: " + c.date + "\nType: " + c.kind + "\n\n" + ShownBody(c)
  }

  /** The single-note file name: the shown title with every whitespace run turned
      into `_`, then `.txt`. */
  function DownloadName(c: Card): string {
    ReplaceSpaceRuns(ShownTitle(c), '_') + ".txt"
  }

  /** The file name has no whitespace, ends in `.txt`, and is no longer than the
      shown title plus the extension. */
  lemma DownloadNameShape(c: Card)
    ensures var n := DownloadName(c);
      NoSpace(n) && |n| >= 4 && n[|n| - 4..] == ".txt" && |n| <= |ShownTitle(c)| + 4
  {
    var stem := ReplaceSpaceRuns(ShownTitle(c), '_');
    ReplaceSpaceRunsClean(ShownTitle(c), '_');
    var n := stem + ".txt";
    assert n[|n| - 4..] == ".txt";
    forall i | 0 <= i < |n| ensures !IsSpace(n[i]) {
      if i < |stem| { assert n[i] == stem[i]; }
    }
  }

  /** Every secret note downloads under the same name. */
  lemma SecretDownloadName(c: Card)
    requires c.isSecret
    ensures DownloadName(c) == "Secret_Note_(Encrypted).txt"
  {
    SecretTitleWords();
    SecretTitleSpelled();
    ReplaceBetweenThreeWords("Secret", "Note", "(Encrypted)", '_');
  }

  lemma SecretTitleWords()
    ensures NoSpace("Secret") && NoSpace("Note") && NoSpace("(Encrypted)")
  {
  }

  lemma SecretTitleSpelled()
    ensures SecretTitle == "Secret" + " " + "Note" + " " + "(Encrypted)"
    ensures "Secret" + "_" + "Note" + "_" + "(Encrypted)" + ".txt" == "Secret_Note_(Encrypted).txt"
  {
  }

  /** Neither the single-note file nor its name depends on a secret note's title
      or content. */
  lemma NoteFileHidesSecret(c: Card, d: Card)
    requires c.isSecret && SameMaskedView(c, d)
    ensures NoteFile(c) == NoteFile(d) && DownloadName(c) == DownloadName(d)
    ensures ExportBlock(c) == ExportBlock(d)
  {
  }

  // ---------------------------------------------------------------------------
  // The new-note form

  /** The new-note form. */
  datatype Draft = Draft(title: string, content: string, isSecret: bool, password: string, kind: string)

  /** `handleAIWrite`: refused (an alert) while the title is empty; otherwise the
      generated text replaces the content and nothing else. */
  function AiWrite(d: Draft, generated: string): (r: Option<Draft>)
    ensures r.None? <==> d.title == ""
    ensures r.Some? ==> r.value.content == generated && r.value.(content := d.content) == d
  {
    if d.title == "" then None else Some(d.(content := generated))
  }
}
