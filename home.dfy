/** The timer, distraction tracker and category manager of
    FocusApp/src/screens/HomeScreen.tsx. The component's state variables
    become the fields of one object, each event handler a method, and the
    body of the one-second interval callback the method Tick. The wall clock
    (the session's day) and `Date.now()` (the session's id) are inputs; so is
    whether a storage call fails. */
module Home {
  import opened Storage
  import opened JsText

  /** What the summary alert shows: its title, the category, a duration in
      seconds and the distraction count. */
  datatype Summary = Summary(title: string, category: string, durationSeconds: int, distractions: int)

  /** Why a category edit is refused (the error alerts). */
  datatype CategoryError = EmptyName | AlreadyExists | LastCategory

  const COMPLETED_TITLE: string := "Süre Doldu!"
  const RESET_TITLE: string := "Seans Sıfırlandı"

  /** 25 minutes, the initial target. */
  const INITIAL_TARGET: int := 25 * 60

  /** The step of the + and - buttons and the smallest target. */
  const STEP: int := 60

  /** `formatTime`: minutes and seconds, each padded to two digits, "mm:ss". */
  function FormatTime(seconds: int): string {
    Pad2(seconds / 60) + ":" + Pad2(JsRem(seconds, 60))
  }

  /** The timer display reads back: two digits of seconds `s % 60` after the
      last colon, and before it at least two digits of minutes `s / 60`. */
  lemma FormatTimeReadsBack(s: nat)
    ensures var r := FormatTime(s);
      |r| >= 5 && r[|r| - 3] == ':' &&
      AllDigits(r[..|r| - 3]) && ParseDecimal(r[..|r| - 3]) == s / 60 &&
      AllDigits(r[|r| - 2..]) && ParseDecimal(r[|r| - 2..]) == s % 60
    ensures s < 6000 ==> |FormatTime(s)| == 5
  {
    var m, sec := Pad2(s / 60), Pad2(JsRem(s, 60));
    Pad2Reads(s / 60);
    Pad2Reads(s % 60);
    var r := FormatTime(s);
    assert r == m + ":" + sec;
    assert r[..|r| - 3] == m;
    assert r[|r| - 2..] == sec;
  }

  /** `categories.filter(c => c !== name)`. */
  function RemoveAll(cats: seq<string>, name: string): (r: seq<string>)
    ensures |r| <= |cats|
    ensures forall x :: x in r <==> x in cats && x != name
  {
    if cats == [] then []
    else (if cats[0] == name then [] else [cats[0]]) + RemoveAll(cats[1..], name)
  }

  /** The filter keeps the order: it distributes over concatenation, so the
      survivors appear in the order they had. */
  lemma {:induction false} RemoveAllAppend(a: seq<string>, b: seq<string>, name: string)
    ensures RemoveAll(a + b, name) == RemoveAll(a, name) + RemoveAll(b, name)
  {
    if a == [] {
      assert a + b == b;
    } else {
      assert (a + b)[1..] == a[1..] + b;
      RemoveAllAppend(a[1..], b, name);
    }
  }

  /** On a duplicate-free list the filter removes exactly the one entry, if present. */
  lemma {:induction false} RemoveAllOfDistinct(cats: seq<string>, name: string)
    requires NoDuplicates(cats)
    ensures NoDuplicates(RemoveAll(cats, name))
    ensures |RemoveAll(cats, name)| == if name in cats then |cats| - 1 else |cats|
  {
    if cats != [] {
      assert NoDuplicates(cats[1..]) by {
        forall i, j | 0 <= i < j < |cats| - 1 ensures cats[1..][i] != cats[1..][j] {
          assert cats[1..][i] == cats[i + 1] && cats[1..][j] == cats[j + 1];
        }
      }
      RemoveAllOfDistinct(cats[1..], name);
      var rest := RemoveAll(cats[1..], name);
      assert cats[0] !in cats[1..];
      assert cats[0] !in rest;
      if cats[0] == name {
        assert name !in cats[1..];
      } else {
        assert name in cats <==> name in cats[1..];
      }
    }
  }

  /** Appending a name that is not listed keeps a list duplicate-free. */
  lemma NoDuplicatesSnoc(cats: seq<string>, name: string)
    requires NoDuplicates(cats) && name !in cats
    ensures NoDuplicates(cats + [name])
  {
    var r := cats + [name];
    forall i, j | 0 <= i < j < |r| ensures r[i] != r[j] {
      assert r[i] == cats[i];
      if j < |cats| { assert r[j] == cats[j]; } else { assert r[j] == name; }
    }
  }

  /** The states React Native reports (`AppStateStatus`). */
  predicate IsAppStateStatus(state: string) {
    state == "active" || state == "background" || state == "inactive" ||
    state == "unknown" || state == "extension"
  }

  /** The app-state test is a substring match of "active": of the states
      React Native reports, "inactive" passes it as well as "active". */
  lemma ActivePatternMatches(state: string)
    requires IsAppStateStatus(state)
    ensures Contains(state, "active") <==> state == "active" || state == "inactive"
  {
    if state == "active" {
      ContainsAt(state, "active", 0);
    } else if state == "inactive" {
      ContainsAt(state, "active", 2);
    } else if state == "background" {
      assert "active"[2] == 't';
      MissingCharNotContained(state, "active", 't');
    } else {
      assert "active"[0] == 'a';
      MissingCharNotContained(state, "active", 'a');
    }
  }

  /** A string lacking a character of the pattern does not contain it. */
  lemma {:induction false} MissingCharNotContained(s: string, p: string, c: char)
    requires c in p && c !in s
    ensures !Contains(s, p)
    decreases |s|
  {
    var k :| 0 <= k < |p| && p[k] == c;
    if |p| <= |s| {
      assert s[..|p|][k] == s[k];
    }
    if |s| > 0 {
      assert c !in s[1..];
      MissingCharNotContained(s[1..], p, c);
    }
  }

  /** The listener's condition: the previous state matches /active/, the
      next one is "background" or "inactive", and the timer is running. */
  predicate IsDistraction(prev: string, next: string, running: bool) {
    Contains(prev, "active") && (next == "background" || next == "inactive") && running
  }

  /** The home screen's state. */
  class HomeScreen {
    var targetDuration: int
    var timer: int
    var isActive: bool
    var categories: seq<string>
    var selectedCategory: string
    var distractionCount: nat
    var prevAppState: string
    const store: Store

    /** A positive multiple of 60 as target and a timer between 0 and the target. */
    ghost predicate Valid()
      reads this, store
    {
      store.Valid() &&
      targetDuration >= STEP && targetDuration % STEP == 0 &&
      0 <= timer <= targetDuration
    }

    /** The first render: 25 minutes, stopped, no categories loaded yet. */
    constructor (store: Store, initialAppState: string)
      requires store.Valid()
      ensures Valid() && this.store == store
      ensures targetDuration == INITIAL_TARGET && timer == INITIAL_TARGET && !isActive
      ensures categories == [] && selectedCategory == "" && distractionCount == 0
      ensures prevAppState == initialAppState
    {
      this.store := store;
      targetDuration := INITIAL_TARGET;
      timer := INITIAL_TARGET;
      isActive := false;
      categories := [];
      selectedCategory := "";
      distractionCount := 0;
      prevAppState := initialAppState;
    }

    /** The mount effect: load the categories and select the first one. */
    method LoadCategories(readOk: bool)
      requires Valid()
      modifies this
      ensures Valid()
      ensures categories == (if readOk then store.Categories() else DEFAULT_CATEGORIES)
      ensures selectedCategory == if categories != [] then categories[0] else old(selectedCategory)
      ensures targetDuration == old(targetDuration) && timer == old(timer) && isActive == old(isActive)
      ensures distractionCount == old(distractionCount) && prevAppState == old(prevAppState)
    {
      var loaded := store.GetCategories(readOk);
      categories := loaded;
      if |loaded| > 0 {
        selectedCategory := loaded[0];
      }
    }

    /** One run of the interval callback, which is armed only while the
        timer is active. Above 0 it counts down by one second and changes
        nothing else. At 0 it stops, saves one session of the full target
        with the current category and distraction count, shows the summary,
        and leaves the timer at 0 and the count as it was. */
    method Tick(day: int, id: string, readOk: bool, writeOk: bool) returns (summary: Option<Summary>)
      requires Valid() && isActive
      modifies this, store
      ensures Valid()
      ensures targetDuration == old(targetDuration) && categories == old(categories)
      ensures selectedCategory == old(selectedCategory) && distractionCount == old(distractionCount)
      ensures prevAppState == old(prevAppState)
      ensures old(timer) > 0 ==>
                timer == old(timer) - 1 && isActive && summary == None && store.items == old(store.items)
      ensures old(timer) <= 0 ==>
                !isActive && timer == 0 &&
                summary == Some(Summary(COMPLETED_TITLE, selectedCategory, targetDuration, distractionCount))
      ensures old(timer) <= 0 && writeOk ==>
                store.items == old(store.items)[SESSIONS_KEY := SessionList(
                  (if readOk then old(store.Sessions()) else []) +
                  [Session(id, day, targetDuration, selectedCategory, distractionCount)])]
      ensures old(timer) <= 0 && !writeOk ==> store.items == old(store.items)
      ensures old(timer) <= 0 && writeOk && readOk ==>
                store.Sessions() == old(store.Sessions()) + [Session(id, day, targetDuration, selectedCategory, distractionCount)]
    {
      if timer <= 0 {
        isActive := false;
        var duration := targetDuration;
        var currentCategory := selectedCategory;
        var currentDistractions := distractionCount;
        var _ := store.SaveSession(SessionInput(day, duration, currentCategory, currentDistractions), id, readOk, writeOk);
        summary := Some(Summary(COMPLETED_TITLE, currentCategory, duration, currentDistractions));
        timer := 0;
      } else {
        timer := timer - 1;
        summary := None;
      }
    }

    /** `handleStart`. */
    method Start()
      requires Valid()
      modifies this
      ensures Valid() && isActive
      ensures targetDuration == old(targetDuration) && timer == old(timer) && categories == old(categories)
      ensures selectedCategory == old(selectedCategory) && distractionCount == old(distractionCount)
      ensures prevAppState == old(prevAppState)
    {
      isActive := true;
    }

    /** `handlePause`. */
    method Pause()
      requires Valid()
      modifies this
      ensures Valid() && !isActive
      ensures targetDuration == old(targetDuration) && timer == old(timer) && categories == old(categories)
      ensures selectedCategory == old(selectedCategory) && distractionCount == old(distractionCount)
      ensures prevAppState == old(prevAppState)
    {
      isActive := false;
    }

    /** `handleReset`: stop, refill the timer, clear the distraction count.
        The summary reports the elapsed time only when some time has elapsed;
        no session is saved. */
    method Reset() returns (summary: Option<Summary>)
      requires Valid()
      modifies this
      ensures Valid()
      ensures !isActive && timer == targetDuration && distractionCount == 0
      ensures targetDuration == old(targetDuration) && categories == old(categories)
      ensures selectedCategory == old(selectedCategory) && prevAppState == old(prevAppState)
      ensures old(timer) < old(targetDuration) ==>
                summary == Some(Summary(RESET_TITLE, selectedCategory, old(targetDuration) - old(timer), old(distractionCount)))
      ensures old(timer) >= old(targetDuration) ==> summary == None
      ensures summary.Some? ==> summary.value.durationSeconds > 0
    {
      summary := None;
      if timer < targetDuration {
        var elapsed := targetDuration - timer;
        summary := Some(Summary(RESET_TITLE, selectedCategory, elapsed, distractionCount));
      }
      isActive := false;
      timer := targetDuration;
      distractionCount := 0;
    }

    /** `handleIncrement`: while stopped, one more minute of target, and the
        timer refilled to it; while running, nothing. */
    method Increment()
      requires Valid()
      modifies this
      ensures Valid()
      ensures !old(isActive) ==> targetDuration == old(targetDuration) + STEP && timer == targetDuration
      ensures old(isActive) ==> targetDuration == old(targetDuration) && timer == old(timer)
      ensures isActive == old(isActive) && categories == old(categories)
      ensures selectedCategory == old(selectedCategory) && distractionCount == old(distractionCount)
      ensures prevAppState == old(prevAppState)
    {
      if !isActive {
        var newDuration := targetDuration + STEP;
        timer := newDuration;
        targetDuration := newDuration;
      }
    }

    /** `handleDecrement`: while stopped and above one minute, one minute
        less of target, and the timer refilled to it; otherwise nothing. */
    method Decrement()
      requires Valid()
      modifies this
      ensures Valid()
      ensures !old(isActive) && old(targetDuration) > STEP ==>
                targetDuration == old(targetDuration) - STEP && timer == targetDuration
      ensures old(isActive) || old(targetDuration) <= STEP ==>
                targetDuration == old(targetDuration) && timer == old(timer)
      ensures isActive == old(isActive) && categories == old(categories)
      ensures selectedCategory == old(selectedCategory) && distractionCount == old(distractionCount)
      ensures prevAppState == old(prevAppState)
    {
      if !isActive {
        if targetDuration > STEP {
          var newDuration := targetDuration - STEP;
          timer := newDuration;
          targetDuration := newDuration;
        }
      }
    }

    /** The AppState listener: leaving a state whose name contains "active"
        for "background" or "inactive" while running pauses and counts one
        distraction; the new state is always remembered. */
    method OnAppStateChange(nextAppState: string)
      requires Valid()
      modifies this
      ensures Valid()
      ensures prevAppState == nextAppState
      ensures IsDistraction(old(prevAppState), nextAppState, old(isActive)) ==>
                !isActive && distractionCount == old(distractionCount) + 1
      ensures !IsDistraction(old(prevAppState), nextAppState, old(isActive)) ==>
                isActive == old(isActive) && distractionCount == old(distractionCount)
      ensures targetDuration == old(targetDuration) && timer == old(timer) && categories == old(categories)
      ensures selectedCategory == old(selectedCategory)
    {
      if Contains(prevAppState, "active") && (nextAppState == "background" || nextAppState == "inactive") {
        if isActive {
          isActive := false;
          distractionCount := distractionCount + 1;
        }
      }
      prevAppState := nextAppState;
    }

    /** Tapping a category button selects it, unless the timer is running. */
    method SelectCategory(name: string)
      requires Valid()
      modifies this
      ensures Valid()
      ensures selectedCategory == if old(isActive) then old(selectedCategory) else name
      ensures targetDuration == old(targetDuration) && timer == old(timer) && categories == old(categories)
      ensures isActive == old(isActive) && distractionCount == old(distractionCount)
      ensures prevAppState == old(prevAppState)
    {
      if !isActive {
        selectedCategory := name;
      }
    }

    /** `handleAddCategory`: refuse a blank or already listed (trimmed) name;
        otherwise append the trimmed name, select it and save the list. */
    method AddCategory(name: string, writeOk: bool) returns (error: Option<CategoryError>)
      requires Valid()
      modifies this, store
      ensures Valid()
      ensures error == if Trim(name) == [] then Some(EmptyName)
                       else if Trim(name) in old(categories) then Some(AlreadyExists) else None
      ensures error.Some? ==>
                categories == old(categories) && selectedCategory == old(selectedCategory) &&
                store.items == old(store.items)
      ensures error.None? ==>
                Trim(name) != [] && Trim(name) !in old(categories) &&
                categories == old(categories) + [Trim(name)] && selectedCategory == Trim(name)
      ensures error.None? ==>
                store.items == if writeOk then old(store.items)[CATEGORIES_KEY := CategoryList(categories)]
                               else old(store.items)
      ensures NoDuplicates(old(categories)) ==> NoDuplicates(categories)
      ensures targetDuration == old(targetDuration) && timer == old(timer) && isActive == old(isActive)
      ensures distractionCount == old(distractionCount) && prevAppState == old(prevAppState)
    {
      var trimmed := Trim(name);
      if |trimmed| == 0 {
        return Some(EmptyName);
      }
      if trimmed in categories {
        return Some(AlreadyExists);
      }
      var updated := categories + [trimmed];
      if NoDuplicates(categories) {
        NoDuplicatesSnoc(categories, trimmed);
      }
      categories := updated;
      selectedCategory := trimmed;
      store.SaveCategories(updated, writeOk);
      error := None;
    }

    /** `handleRemoveCategory`, confirmed: refuse when one category or fewer
        is left; otherwise drop every entry equal to `name`, keeping the order,
        save the list, and move the selection to the new first entry if the
        removed one was selected. */
    method RemoveCategory(name: string, writeOk: bool) returns (error: Option<CategoryError>)
      requires Valid()
      modifies this, store
      ensures Valid()
      ensures error == (if |old(categories)| <= 1 then Some(LastCategory) else None)
      ensures error.Some? ==>
                categories == old(categories) && selectedCategory == old(selectedCategory) &&
                store.items == old(store.items)
      ensures error.None? ==> categories == RemoveAll(old(categories), name)
      ensures error.None? ==>
                store.items == if writeOk then old(store.items)[CATEGORIES_KEY := CategoryList(categories)]
                               else old(store.items)
      ensures error.None? && old(selectedCategory) == name && categories != [] ==> selectedCategory == categories[0]
      ensures error.None? && old(selectedCategory) == name && categories == [] ==> selectedCategory == ""
      ensures error.None? && old(selectedCategory) != name ==> selectedCategory == old(selectedCategory)
      ensures error.None? && NoDuplicates(old(categories)) ==> NoDuplicates(categories) && categories != []
      ensures targetDuration == old(targetDuration) && timer == old(timer) && isActive == old(isActive)
      ensures distractionCount == old(distractionCount) && prevAppState == old(prevAppState)
    {
      if |categories| <= 1 {
        return Some(LastCategory);
      }
      if NoDuplicates(categories) {
        RemoveAllOfDistinct(categories, name);
      }
      var updated := RemoveAll(categories, name);
      categories := updated;
      store.SaveCategories(updated, writeOk);
      if selectedCategory == name {
        selectedCategory := if |updated| > 0 then updated[0] else "";
      }
      error := None;
    }
  }

  /** The interval running undisturbed until it fires at 0: the timer falls
      by one per tick, and the tick after it reaches 0 stops the timer and
      saves exactly one session of the full target. */
  method TickUntilDone(screen: HomeScreen, day: int, id: string) returns (ticks: nat, summary: Option<Summary>)
    requires screen.Valid() && screen.isActive
    modifies screen, screen.store
    ensures screen.Valid()
    ensures ticks == old(screen.timer) + 1
    ensures !screen.isActive && screen.timer == 0
    ensures screen.targetDuration == old(screen.targetDuration) && screen.categories == old(screen.categories)
    ensures screen.selectedCategory == old(screen.selectedCategory)
    ensures screen.distractionCount == old(screen.distractionCount)
    ensures screen.store.Sessions() == old(screen.store.Sessions()) +
              [Session(id, day, screen.targetDuration, screen.selectedCategory, screen.distractionCount)]
    ensures summary == Some(Summary(COMPLETED_TITLE, screen.selectedCategory, screen.targetDuration, screen.distractionCount))
  {
    ticks := 0;
    while screen.timer > 0
      invariant screen.Valid() && screen.isActive
      invariant screen.timer == old(screen.timer) - ticks
      invariant screen.targetDuration == old(screen.targetDuration) && screen.categories == old(screen.categories)
      invariant screen.selectedCategory == old(screen.selectedCategory)
      invariant screen.distractionCount == old(screen.distractionCount)
      invariant screen.store.items == old(screen.store.items)
      decreases screen.timer
    {
      summary := screen.Tick(day, id, true, true);
      ticks := ticks + 1;
    }
    summary := screen.Tick(day, id, true, true);
    ticks := ticks + 1;
  }

  /** A first session on a fresh install: 25 minutes with the first default
      category and no distraction is saved on the 1501st tick. */
  method FreshSessionScenario(day: int, id: string) returns (ticks: nat, log: seq<Session>)
    ensures ticks == INITIAL_TARGET + 1
    ensures log == [Session(id, day, INITIAL_TARGET, DEFAULT_CATEGORIES[0], 0)]
  {
    var store := new Store();
    var screen := new HomeScreen(store, "active");
    screen.LoadCategories(true);
    screen.Start();
    var summary;
    ticks, summary := TickUntilDone(screen, day, id);
    log := store.GetSessions(true);
  }

  /** Leaving the app after `k` seconds pauses the timer and counts one
      distraction; once started again, the session completes carrying the
      count 1, after one tick more than the target in all. */
  method DistractedSessionScenario(k: nat, day: int, id: string) returns (ticks: nat, log: seq<Session>)
    requires k <= INITIAL_TARGET
    ensures ticks == INITIAL_TARGET + 1
    ensures log == [Session(id, day, INITIAL_TARGET, DEFAULT_CATEGORIES[0], 1)]
  {
    var store := new Store();
    var screen := new HomeScreen(store, "active");
    screen.LoadCategories(true);
    screen.Start();
    ticks := 0;
    while ticks < k
      invariant screen.Valid() && screen.isActive && screen.store == store
      invariant ticks <= k && screen.timer == INITIAL_TARGET - ticks
      invariant screen.targetDuration == INITIAL_TARGET && screen.selectedCategory == DEFAULT_CATEGORIES[0]
      invariant screen.distractionCount == 0 && screen.prevAppState == "active"
      invariant store.Sessions() == []
      decreases k - ticks
    {
      var _ := screen.Tick(day, id, true, true);
      ticks := ticks + 1;
    }
    ActivePatternMatches("active");
    screen.OnAppStateChange("background");
    assert !screen.isActive && screen.distractionCount == 1;
    screen.OnAppStateChange("active");
    screen.Start();
    var rest, _ := TickUntilDone(screen, day, id);
    ticks := ticks + rest;
    log := store.GetSessions(true);
  }

  /** Completion leaves the timer at 0, so starting again without a reset
      saves a second full-length session on the very next tick. */
  method RestartAfterCompletionScenario(day: int, id1: string, id2: string)
    returns (secondTicks: nat, log: seq<Session>)
    ensures secondTicks == 1
    ensures log == [Session(id1, day, INITIAL_TARGET, DEFAULT_CATEGORIES[0], 0),
                    Session(id2, day, INITIAL_TARGET, DEFAULT_CATEGORIES[0], 0)]
  {
    var store := new Store();
    var screen := new HomeScreen(store, "active");
    screen.LoadCategories(true);
    screen.Start();
    var firstTicks, summary := TickUntilDone(screen, day, id1);
    screen.Start();
    secondTicks, summary := TickUntilDone(screen, day, id2);
    log := store.GetSessions(true);
  }
}
