/** The note store of pages/Notes.tsx: the search view (a case-insensitive
    substring filter over title or content, newest first), and the editor's
    new / save / delete / cancel transitions. */
module Notes {
  import opened Types
  import opened Lists
  import opened Text

  /** The search test: the lower-cased title or content contains the lower-cased term. */
  predicate Matches(n: Note, term: string)
  {
    Contains(ToLower(n.title), ToLower(term)) || Contains(ToLower(n.content), ToLower(term))
  }

  /** `Matches` as the callback handed to `filter`. */
  function MatchesTerm(term: string): Note -> bool
  {
    (n: Note) => Matches(n, term)
  }

  /** Newest first: every note is at least as recent as the ones after it. */
  ghost predicate NewestFirst(s: seq<Note>)
  {
    forall i, j :: 0 <= i < j < |s| ==> s[i].createdAt >= s[j].createdAt
  }

  /** Places `n` in front of the first note that is not more recent than it, so
      that among equal timestamps the earlier position is kept. */
  function Insert(n: Note, s: seq<Note>): seq<Note>
  {
    if s == [] then [n]
    else if s[0].createdAt <= n.createdAt then [n] + s
    else [s[0]] + Insert(n, s[1..])
  }

  /** `sort((a, b) => b.createdAt - a.createdAt)`: a stable sort, newest first. */
  function SortNewestFirst(s: seq<Note>): seq<Note>
  {
    if s == [] then [] else Insert(s[0], SortNewestFirst(s[1..]))
  }

  /** `filteredNotes`. */
  function FilteredNotes(notes: seq<Note>, term: string): seq<Note>
  {
    SortNewestFirst(Filter(notes, MatchesTerm(term)))
  }

  /** Inserting adds exactly one occurrence of `n`. */
  lemma {:induction false} InsertPermutes(n: Note, s: seq<Note>)
    ensures multiset(Insert(n, s)) == multiset(s) + multiset{n}
  {
    if s != [] && s[0].createdAt > n.createdAt {
      InsertPermutes(n, s[1..]);
      assert s == [s[0]] + s[1..];
    }
  }

  /** Inserting into a newest-first list keeps it newest first. */
  lemma {:induction false} InsertSorted(n: Note, s: seq<Note>)
    requires NewestFirst(s)
    ensures NewestFirst(Insert(n, s))
  {
    if s != [] && s[0].createdAt > n.createdAt {
      assert NewestFirst(s[1..]);
      InsertSorted(n, s[1..]);
      InsertPermutes(n, s[1..]);
      var r := Insert(n, s);
      forall j | 1 <= j < |r| ensures r[0].createdAt >= r[j].createdAt {
        var x := r[j];
        assert x in multiset(Insert(n, s[1..]));
        assert x in multiset(s[1..]) + multiset{n};
        if x != n {
          assert x in s[1..];
        }
      }
    }
  }

  /** The sorted view holds the same notes, each as often as before. */
  lemma {:induction false} SortPermutes(s: seq<Note>)
    ensures multiset(SortNewestFirst(s)) == multiset(s)
  {
    if s != [] {
      SortPermutes(s[1..]);
      InsertPermutes(s[0], SortNewestFirst(s[1..]));
      assert s == [s[0]] + s[1..];
    }
  }

  /** The sorted view is newest first. */
  lemma {:induction false} SortSorted(s: seq<Note>)
    ensures NewestFirst(SortNewestFirst(s))
  {
    if s != [] {
      SortSorted(s[1..]);
      InsertSorted(s[0], SortNewestFirst(s[1..]));
    }
  }

  /** The notes with one given timestamp. */
  function CreatedAtIs(k: int): Note -> bool
  {
    (n: Note) => n.createdAt == k
  }

  /** Inserting `n` keeps the relative order of the notes sharing any one timestamp,
      with `n` first among its own. */
  lemma {:induction false} InsertStable(n: Note, s: seq<Note>, k: int)
    ensures Filter(Insert(n, s), CreatedAtIs(k)) == Filter([n] + s, CreatedAtIs(k))
  {
    if s != [] && s[0].createdAt > n.createdAt {
      var p := CreatedAtIs(k);
      InsertStable(n, s[1..], k);
      FilterConcat([s[0]], Insert(n, s[1..]), p);
      FilterConcat([n], s[1..], p);
      FilterConcat([n], s, p);
      FilterConcat([s[0]], s[1..], p);
      assert s == [s[0]] + s[1..];
    }
  }

  /** The sort is stable: notes with equal timestamps keep their original relative order. */
  lemma {:induction false} SortStable(s: seq<Note>, k: int)
    ensures Filter(SortNewestFirst(s), CreatedAtIs(k)) == Filter(s, CreatedAtIs(k))
  {
    if s != [] {
      var p := CreatedAtIs(k);
      SortStable(s[1..], k);
      InsertStable(s[0], SortNewestFirst(s[1..]), k);
      FilterConcat([s[0]], SortNewestFirst(s[1..]), p);
      FilterConcat([s[0]], s[1..], p);
      assert s == [s[0]] + s[1..];
    }
  }

  /** A note is shown exactly when it is stored and matches the term, and the view
      is newest first and holds each matching note as often as the store does. */
  lemma FilteredNotesSpec(notes: seq<Note>, term: string, n: Note)
    ensures n in FilteredNotes(notes, term) <==> n in notes && Matches(n, term)
    ensures NewestFirst(FilteredNotes(notes, term))
    ensures multiset(FilteredNotes(notes, term)) == multiset(Filter(notes, MatchesTerm(term)))
  {
    var matching := Filter(notes, MatchesTerm(term));
    SortPermutes(matching);
    SortSorted(matching);
    FilterMembership(notes, MatchesTerm(term), n);
    assert n in SortNewestFirst(matching) <==> n in multiset(SortNewestFirst(matching));
  }

  /** An empty search shows every note, newest first. */
  lemma FilteredNotesEmptyTerm(notes: seq<Note>)
    ensures FilteredNotes(notes, "") == SortNewestFirst(notes)
  {
    forall i | 0 <= i < |notes| ensures MatchesTerm("")(notes[i]) {
      ContainsEmpty(ToLower(notes[i].title));
    }
    FilterKeepsAll(notes, MatchesTerm(""));
  }

  /** The edit branch of the save: `prev.map(n => n.id === note.id ? note : n)`. */
  function ReplaceById(notes: seq<Note>, note: Note): seq<Note>
  {
    MapWhere(notes, (n: Note) => n.id == note.id, (_: Note) => note)
  }

  /** Saving an edit puts the edited note in place of every note with its id;
      the other notes and the order are kept. */
  lemma ReplaceByIdSpec(notes: seq<Note>, note: Note)
    ensures var r := ReplaceById(notes, note);
      && |r| == |notes|
      && forall i :: 0 <= i < |notes| ==> r[i] == (if notes[i].id == note.id then note else notes[i])
  {
  }

  /** `prev.filter(n => n.id !== id)`. */
  function DeleteById(notes: seq<Note>, id: string): seq<Note>
  {
    Filter(notes, (n: Note) => n.id != id)
  }

  /** A note survives deletion exactly when it was stored and has another id. */
  lemma DeleteByIdMembership(notes: seq<Note>, id: string, n: Note)
    ensures n in DeleteById(notes, id) <==> n in notes && n.id != id
  {
    FilterMembership(notes, (n: Note) => n.id != id, n);
  }

  /** The state of the Notes page. */
  class NotesState {
    var notes: seq<Note>
    var selectedNote: Option<Note>
    var isCreating: bool
    var searchTerm: string

    /** The page mounts with the persisted notes and nothing open. */
    constructor (stored: seq<Note>)
      ensures notes == stored && selectedNote == None && !isCreating && searchTerm == ""
    {
      notes := stored;
      selectedNote := None;
      isCreating := false;
      searchTerm := "";
    }

    /** The search box changes. */
    method SetSearchTerm(term: string)
      modifies this`searchTerm
      ensures searchTerm == term
    {
      searchTerm := term;
    }

    /** The grid shown: the filtered, sorted view of the store. */
    method Visible() returns (r: seq<Note>)
      ensures r == FilteredNotes(notes, searchTerm)
      ensures NewestFirst(r)
      ensures forall n :: n in r <==> n in notes && Matches(n, searchTerm)
    {
      r := FilteredNotes(notes, searchTerm);
      SortSorted(Filter(notes, MatchesTerm(searchTerm)));
      forall n ensures n in r <==> n in notes && Matches(n, searchTerm) {
        FilteredNotesSpec(notes, searchTerm, n);
      }
    }

    /** `handleNewNote`: open an empty draft stamped with the clock's `now`. */
    method HandleNewNote(now: int)
      modifies this`isCreating, this`selectedNote
      ensures isCreating && selectedNote == Some(Note("", "", "", now))
    {
      isCreating := true;
      selectedNote := Some(Note("", "", "", now));
    }

    /** A card is clicked: open that note for editing. */
    method SelectNote(n: Note)
      modifies this`selectedNote
      ensures selectedNote == Some(n)
    {
      selectedNote := Some(n);
    }

    /** The title field changes; without an open note nothing happens. */
    method EditTitle(title: string)
      modifies this`selectedNote
      ensures selectedNote == if old(selectedNote).Some? then Some(old(selectedNote).value.(title := title)) else None
    {
      if selectedNote.Some? {
        selectedNote := Some(selectedNote.value.(title := title));
      }
    }

    /** The content field changes; without an open note nothing happens. */
    method EditContent(content: string)
      modifies this`selectedNote
      ensures selectedNote == if old(selectedNote).Some? then Some(old(selectedNote).value.(content := content)) else None
    {
      if selectedNote.Some? {
        selectedNote := Some(selectedNote.value.(content := content));
      }
    }

    /** The Cancel button closes the editor. */
    method Cancel()
      modifies this`selectedNote, this`isCreating
      ensures selectedNote == None && !isCreating
    {
      selectedNote := None;
      isCreating := false;
    }

    /** `handleSaveNote`: nothing happens without an open note or when its title is
        white space only. A draft goes to the front with the clock's `freshId` and
        `now`; an edit replaces the stored note with its id. Then the editor closes. */
    method HandleSaveNote(freshId: string, now: int)
      modifies this`notes, this`selectedNote, this`isCreating
      ensures old(selectedNote).None? || Trim(old(selectedNote).value.title) == "" ==>
        notes == old(notes) && selectedNote == old(selectedNote) && isCreating == old(isCreating)
      ensures old(selectedNote).Some? && Trim(old(selectedNote).value.title) != "" ==>
        && notes == (if old(isCreating) then [old(selectedNote).value.(id := freshId, createdAt := now)] + old(notes)
                     else ReplaceById(old(notes), old(selectedNote).value))
        && selectedNote == None && !isCreating
    {
      if selectedNote.None? || Trim(selectedNote.value.title) == "" {
        return;
      }
      var note := selectedNote.value;
      if isCreating {
        notes := [note.(id := freshId, createdAt := now)] + notes;
      } else {
        notes := ReplaceById(notes, note);
      }
      isCreating := false;
      selectedNote := None;
    }

    /** `handleDeleteNote`: the notes with that id go; the editor closes only when
        the open note has that id. */
    method HandleDeleteNote(id: string)
      modifies this`notes, this`selectedNote, this`isCreating
      ensures notes == DeleteById(old(notes), id)
      ensures old(selectedNote).Some? && old(selectedNote).value.id == id ==> selectedNote == None && !isCreating
      ensures !(old(selectedNote).Some? && old(selectedNote).value.id == id) ==>
        selectedNote == old(selectedNote) && isCreating == old(isCreating)
    {
      notes := DeleteById(notes, id);
      if selectedNote.Some? && selectedNote.value.id == id {
        selectedNote := None;
        isCreating := false;
      }
    }
  }
}
