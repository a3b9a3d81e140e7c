/** The session and category store of FocusApp/src/utils/storage.ts.
    AsyncStorage is an abstract map from keys to stored values; JSON
    serialisation is the identity, so a stored value is the list itself.
    Whether the underlying storage call fails is an input (`readOk`,
    `writeOk`): a failure is caught by the store, logged, and replaced by a
    default result. */
module Storage {

  datatype Option<T> = None | Some(value: T)

  /** A completed focus session. The ISO creation timestamp is abstracted to
      the calendar day it falls on. */
  datatype Session = Session(id: string, day: int, duration: int, category: string, distractionCount: int)

  /** A session record before the store gives it an id (`Omit<Session, 'id'>`). */
  datatype SessionInput = SessionInput(day: int, duration: int, category: string, distractionCount: int)

  /** What one key of the store holds once JSON is taken as the identity. */
  datatype Blob = SessionList(sessions: seq<Session>) | CategoryList(names: seq<string>)

  const SESSIONS_KEY: string := "@focus_sessions"
  const CATEGORIES_KEY: string := "@focus_categories"

  /** The categories offered until the user saves a list of their own. */
  const DEFAULT_CATEGORIES: seq<string> := ["Ders Çalışma", "Kodlama", "Proje", "Kitap Okuma"]

  predicate NoDuplicates(s: seq<string>) {
    forall i, j :: 0 <= i < j < |s| ==> s[i] != s[j]
  }

  /** The spread `{ ...session, id }`: the input's fields and the new id. */
  function WithId(s: SessionInput, id: string): (r: Session)
    ensures r.id == id && Unstamped(r) == s
  {
    Session(id, s.day, s.duration, s.category, s.distractionCount)
  }

  /** The record without its id: the inverse of WithId. */
  function Unstamped(r: Session): SessionInput {
    SessionInput(r.day, r.duration, r.category, r.distractionCount)
  }

  /** The default list has four distinct entries, in the order listed. */
  lemma DefaultCategoriesShape()
    ensures |DEFAULT_CATEGORIES| == 4 && NoDuplicates(DEFAULT_CATEGORIES)
    ensures DEFAULT_CATEGORIES[0] == "Ders Çalışma" && DEFAULT_CATEGORIES[3] == "Kitap Okuma"
  {
    assert DEFAULT_CATEGORIES[0][0] != DEFAULT_CATEGORIES[1][0];
    assert DEFAULT_CATEGORIES[0][0] != DEFAULT_CATEGORIES[2][0];
    assert DEFAULT_CATEGORIES[0][0] != DEFAULT_CATEGORIES[3][0];
    assert DEFAULT_CATEGORIES[1][0] != DEFAULT_CATEGORIES[2][0];
    assert DEFAULT_CATEGORIES[1][1] != DEFAULT_CATEGORIES[3][1];
    assert DEFAULT_CATEGORIES[2][0] != DEFAULT_CATEGORIES[3][0];
  }

  /** The key-value store holding the two lists. */
  class Store {
    var items: map<string, Blob>

    /** Each key holds the kind of list that is written under it. */
    ghost predicate Valid()
      reads this
    {
      (SESSIONS_KEY in items ==> items[SESSIONS_KEY].SessionList?) &&
      (CATEGORIES_KEY in items ==> items[CATEGORIES_KEY].CategoryList?)
    }

    /** The session log as a successful read returns it; `[]` when nothing is stored. */
    function Sessions(): seq<Session>
      reads this
      requires Valid()
    {
      if SESSIONS_KEY in items then items[SESSIONS_KEY].sessions else []
    }

    /** The category list as a successful read returns it; the defaults when nothing is stored. */
    function Categories(): seq<string>
      reads this
      requires Valid()
    {
      if CATEGORIES_KEY in items then items[CATEGORIES_KEY].names else DEFAULT_CATEGORIES
    }

    /** A store on a device that has never saved anything. */
    constructor ()
      ensures Valid() && items == map[]
      ensures Sessions() == [] && Categories() == DEFAULT_CATEGORIES
    {
      items := map[];
    }

    /** `getSessions`: the stored log, or `[]` when nothing is stored or the read fails. */
    method GetSessions(readOk: bool) returns (r: seq<Session>)
      requires Valid()
      ensures !readOk ==> r == []
      ensures SESSIONS_KEY !in items ==> r == []
      ensures readOk && SESSIONS_KEY in items ==> r == items[SESSIONS_KEY].sessions
    {
      if !readOk {
        return [];
      }
      r := if SESSIONS_KEY in items then items[SESSIONS_KEY].sessions else [];
    }

    /** `saveSession`: read the log, append one stamped record, write the
        whole log back. A failed read has already been turned into `[]` by
        `getSessions`, so the write then replaces the log by the one record; a
        failed write leaves the store as it was and returns nothing. */
    method SaveSession(input: SessionInput, id: string, readOk: bool, writeOk: bool)
      returns (r: Option<Session>)
      requires Valid()
      modifies this
      ensures Valid()
      ensures !writeOk ==> r == None && items == old(items)
      ensures writeOk ==> r == Some(WithId(input, id))
      ensures writeOk ==>
                items == old(items)[SESSIONS_KEY := SessionList((if readOk then old(Sessions()) else []) + [r.value])]
      ensures writeOk && readOk ==> Sessions() == old(Sessions()) + [WithId(input, id)]
      ensures Categories() == old(Categories())
    {
      var existing := GetSessions(readOk);
      var stamped := WithId(input, id);
      if !writeOk {
        return None;
      }
      items := items[SESSIONS_KEY := SessionList(existing + [stamped])];
      r := Some(stamped);
    }

    /** `clearSessions`: remove the log; a failed removal changes nothing. */
    method ClearSessions(ok: bool)
      requires Valid()
      modifies this
      ensures Valid()
      ensures items == if ok then old(items) - {SESSIONS_KEY} else old(items)
      ensures ok ==> Sessions() == []
      ensures Categories() == old(Categories())
    {
      if ok {
        items := items - {SESSIONS_KEY};
      }
    }

    /** `getCategories`: the stored list, or the defaults when nothing is
        stored or the read fails. */
    method GetCategories(readOk: bool) returns (r: seq<string>)
      requires Valid()
      ensures !readOk ==> r == DEFAULT_CATEGORIES
      ensures CATEGORIES_KEY !in items ==> r == DEFAULT_CATEGORIES
      ensures readOk && CATEGORIES_KEY in items ==> r == items[CATEGORIES_KEY].names
    {
      if !readOk {
        return DEFAULT_CATEGORIES;
      }
      r := if CATEGORIES_KEY in items then items[CATEGORIES_KEY].names else DEFAULT_CATEGORIES;
    }

    /** `saveCategories`: overwrite the whole list; a failed write changes nothing. */
    method SaveCategories(names: seq<string>, writeOk: bool)
      requires Valid()
      modifies this
      ensures Valid()
      ensures items == if writeOk then old(items)[CATEGORIES_KEY := CategoryList(names)] else old(items)
      ensures writeOk ==> Categories() == names
      ensures Sessions() == old(Sessions())
    {
      if writeOk {
        items := items[CATEGORIES_KEY := CategoryList(names)];
      }
    }
  }

  /** Saving a category list and reading it back returns the same list, in
      the same order, and leaves the session log as it was. */
  method SaveThenLoadCategories(store: Store, names: seq<string>)
    returns (loaded: seq<string>, sessionsAfter: seq<Session>)
    requires store.Valid()
    modifies store
    ensures loaded == names
    ensures sessionsAfter == old(store.Sessions())
  {
    store.SaveCategories(names, true);
    loaded := store.GetCategories(true);
    sessionsAfter := store.GetSessions(true);
  }

  /** After clearing, reading the log returns `[]`, and the categories are kept. */
  method ClearThenLoadSessions(store: Store) returns (loaded: seq<Session>, categoriesAfter: seq<string>)
    requires store.Valid()
    modifies store
    ensures loaded == []
    ensures categoriesAfter == old(store.Categories())
  {
    store.ClearSessions(true);
    loaded := store.GetSessions(true);
    categoriesAfter := store.GetCategories(true);
  }

  /** Saving a session and reading the log back: the earlier records in
      order, then the new one, which carries the input's fields. */
  method SaveThenLoadSession(store: Store, input: SessionInput, id: string)
    returns (saved: Option<Session>, loaded: seq<Session>)
    requires store.Valid()
    modifies store
    ensures saved.Some? && Unstamped(saved.value) == input && saved.value.id == id
    ensures |loaded| == |old(store.Sessions())| + 1
    ensures loaded[..|loaded| - 1] == old(store.Sessions()) && loaded[|loaded| - 1] == saved.value
  {
    saved := store.SaveSession(input, id, true, true);
    loaded := store.GetSessions(true);
  }
}
