/**
 The conversation handlers of the bot: `start`, `menu`, `search`, `paginate`
 and `cancel`. Chat I/O is left out: each handler returns the state the
 conversation goes to and, where it matters, what it shows (a keyboard) or
 hands to the downloader (a video id); the writes to `context.user_data`, to
 the history table and to `user_jobs` are the state it changes.
 */
module Conversation {
  import opened Optional
  import opened Text
  import opened Limiter
  import opened Keyboard

  /** MENU, SEARCH, CHOOSE and PAGINATE (the integers 0 to 3) and the
      conversation's END. No handler is registered for CHOOSE. */
  datatype State = Menu | Search | Choose | Paginate | End

  /** The search modes the menu can store. */
  datatype Mode = Titolo | Artista | Album

  function ModeWord(m: Mode): string {
    match m
    case Titolo => "titolo"
    case Artista => "artista"
    case Album => "album"
  }

  /** What the menu makes of a message. */
  datatype MenuChoice = Pick(mode: Mode) | ShowHistory | Quit | Unrecognised

  /** The words the menu looks for, in the order it looks for them. */
  const KEYWORDS: seq<string> := ["titolo", "artista", "album", "cronologia", "esci"]

  /** The choice the k-th keyword stands for. */
  function ChoiceFor(k: nat): MenuChoice
    requires k < |KEYWORDS|
  {
    if k == 0 then Pick(Titolo)
    else if k == 1 then Pick(Artista)
    else if k == 2 then Pick(Album)
    else if k == 3 then ShowHistory
    else Quit
  }

  /** The routing of `menu`: the lower-cased message is tested for each
      keyword in turn and the first one found decides. */
  function RouteMenu(text: string): (c: MenuChoice)
    ensures c != Unrecognised ==>
              exists k :: 0 <= k < |KEYWORDS| && c == ChoiceFor(k) && Contains(Lower(text), KEYWORDS[k])
    ensures c == Unrecognised ==> forall k :: 0 <= k < |KEYWORDS| ==> !Contains(Lower(text), KEYWORDS[k])
  {
    var t := Lower(text);
    if Contains(t, KEYWORDS[0]) then Pick(Titolo)
    else if Contains(t, KEYWORDS[1]) then Pick(Artista)
    else if Contains(t, KEYWORDS[2]) then Pick(Album)
    else if Contains(t, KEYWORDS[3]) then ShowHistory
    else if Contains(t, KEYWORDS[4]) then Quit
    else Unrecognised
  }

  /** A message is understood exactly when it contains one of the keywords,
      in any case. */
  lemma RouteMenuRecognised(text: string)
    ensures RouteMenu(text) != Unrecognised <==>
            exists k :: 0 <= k < |KEYWORDS| && Contains(Lower(text), KEYWORDS[k])
  {
    var t := Lower(text);
    var c := RouteMenu(text);
    assert KEYWORDS == ["titolo", "artista", "album", "cronologia", "esci"];
    if c != Unrecognised {
      var k := if c == Pick(Titolo) then 0 else if c == Pick(Artista) then 1
               else if c == Pick(Album) then 2 else if c == ShowHistory then 3 else 4;
      assert Contains(t, KEYWORDS[k]);
    }
  }

  /** The choice made is that of the first keyword, in the fixed order, that
      the lower-cased message contains. */
  lemma RouteMenuFirstMatch(text: string, k: nat)
    requires k < |KEYWORDS|
    ensures RouteMenu(text) == ChoiceFor(k) <==>
            && Contains(Lower(text), KEYWORDS[k])
            && forall j :: 0 <= j < k ==> !Contains(Lower(text), KEYWORDS[j])
  {
    var t := Lower(text);
    if k == 0 {
      assert RouteMenu(text) == Pick(Titolo) <==> Contains(t, KEYWORDS[0]);
    } else if k == 1 {
      assert RouteMenu(text) == Pick(Artista) <==> !Contains(t, KEYWORDS[0]) && Contains(t, KEYWORDS[1]);
    } else if k == 2 {
      assert RouteMenu(text) == Pick(Album) <==>
             !Contains(t, KEYWORDS[0]) && !Contains(t, KEYWORDS[1]) && Contains(t, KEYWORDS[2]);
    } else if k == 3 {
      assert RouteMenu(text) == ShowHistory <==>
             !Contains(t, KEYWORDS[0]) && !Contains(t, KEYWORDS[1]) && !Contains(t, KEYWORDS[2]) &&
             Contains(t, KEYWORDS[3]);
    } else {
      assert RouteMenu(text) == Quit <==>
             !Contains(t, KEYWORDS[0]) && !Contains(t, KEYWORDS[1]) && !Contains(t, KEYWORDS[2]) &&
             !Contains(t, KEYWORDS[3]) && Contains(t, KEYWORDS[4]);
    }
  }

  /** The menu ignores case. */
  lemma RouteMenuIgnoresCase(text: string)
    ensures RouteMenu(Lower(text)) == RouteMenu(text)
  {
    LowerIdempotent(text);
  }

  lemma LowerUpperTitle()
    ensures Lower("TITOLO") == "titolo"
  {
  }

  /** The menu word typed in capitals still selects its search: "TITOLO"
      chooses the title search. */
  lemma UpperCaseTitleRoutes()
    ensures RouteMenu("TITOLO") == Pick(Titolo)
  {
    LowerUpperTitle();
    assert OccursAt(Lower("TITOLO"), KEYWORDS[0], 0);
    RouteMenuFirstMatch("TITOLO", 0);
  }

  /** A chosen mode is the keyword the message contained. */
  lemma PickedModeOccurs(text: string)
    requires RouteMenu(text).Pick?
    ensures Contains(Lower(text), ModeWord(RouteMenu(text).mode))
  {
    var c := RouteMenu(text);
    var k := if c.mode == Titolo then 0 else if c.mode == Artista then 1 else 2;
    assert c == ChoiceFor(k);
  }

  /** The reply keyboard of `start`, one button per row. */
  const MENU_BUTTONS: seq<string> := [
    "\U{1F50D} Cerca per titolo",
    "\U{1F3A4} Cerca per artista",
    "\U{1F4BF} Cerca per album",
    "\U{1F551} Cronologia",
    "\U{274C} Esci"
  ]

  /** A pattern holding a character the text lacks cannot occur in it. */
  lemma MissingCharExcludes(text: string, pat: string, c: char)
    requires c in pat && c !in text
    ensures !Contains(text, pat)
  {
    var j :| 0 <= j < |pat| && pat[j] == c;
    forall i | 0 <= i <= |text| - |pat| ensures !OccursAt(text, pat, i) {
      assert text[i..i + |pat|][j] == text[i + j];
    }
  }

  lemma LowerTitleButton()
    ensures Lower(MENU_BUTTONS[0]) == "\U{1F50D} cerca per titolo"
  {
  }

  /** The "titolo" button chooses the title search. */
  lemma TitleButtonRoutes()
    ensures RouteMenu(MENU_BUTTONS[0]) == Pick(Titolo)
  {
    LowerTitleButton();
    var t := Lower(MENU_BUTTONS[0]);
    assert OccursAt(t, KEYWORDS[0], 12);
    RouteMenuFirstMatch(MENU_BUTTONS[0], 0);
  }

  lemma LowerArtistButton()
    ensures Lower(MENU_BUTTONS[1]) == "\U{1F3A4} cerca per artista"
  {
  }

  /** The "artista" button chooses the artist search. */
  lemma ArtistButtonRoutes()
    ensures RouteMenu(MENU_BUTTONS[1]) == Pick(Artista)
  {
    LowerArtistButton();
    var t := Lower(MENU_BUTTONS[1]);
    MissingCharExcludes(t, KEYWORDS[0], 'o');
    assert OccursAt(t, KEYWORDS[1], 12);
    RouteMenuFirstMatch(MENU_BUTTONS[1], 1);
  }

  lemma LowerAlbumButton()
    ensures Lower(MENU_BUTTONS[2]) == "\U{1F4BF} cerca per album"
  {
  }

  /** The "album" button chooses the album search. */
  lemma AlbumButtonRoutes()
    ensures RouteMenu(MENU_BUTTONS[2]) == Pick(Album)
  {
    LowerAlbumButton();
    var t := Lower(MENU_BUTTONS[2]);
    MissingCharExcludes(t, KEYWORDS[0], 'o');
    MissingCharExcludes(t, KEYWORDS[1], 't');
    assert OccursAt(t, KEYWORDS[2], 12);
    RouteMenuFirstMatch(MENU_BUTTONS[2], 2);
  }

  lemma LowerHistoryButton()
    ensures Lower(MENU_BUTTONS[3]) == "\U{1F551} cronologia"
  {
  }

  /** The "Cronologia" button asks for the history. */
  lemma HistoryButtonRoutes()
    ensures RouteMenu(MENU_BUTTONS[3]) == ShowHistory
  {
    LowerHistoryButton();
    var t := Lower(MENU_BUTTONS[3]);
    MissingCharExcludes(t, KEYWORDS[0], 't');
    MissingCharExcludes(t, KEYWORDS[1], 't');
    MissingCharExcludes(t, KEYWORDS[2], 'b');
    assert OccursAt(t, KEYWORDS[3], 2);
    RouteMenuFirstMatch(MENU_BUTTONS[3], 3);
  }

  lemma LowerQuitButton()
    ensures Lower(MENU_BUTTONS[4]) == "\U{274C} esci"
  {
  }

  /** The "Esci" button ends the conversation. */
  lemma QuitButtonRoutes()
    ensures RouteMenu(MENU_BUTTONS[4]) == Quit
  {
    LowerQuitButton();
    var t := Lower(MENU_BUTTONS[4]);
    MissingCharExcludes(t, KEYWORDS[0], 't');
    MissingCharExcludes(t, KEYWORDS[1], 't');
    MissingCharExcludes(t, KEYWORDS[2], 'a');
    MissingCharExcludes(t, KEYWORDS[3], 'o');
    assert OccursAt(t, KEYWORDS[4], 2);
    RouteMenuFirstMatch(MENU_BUTTONS[4], 4);
  }

  /** A key of `context.user_data`: absent until a handler first writes it. */
  datatype Slot<T> = Unset | Set(value: T)

  /** The keys the handlers keep in `context.user_data`. */
  datatype UserData = UserData(
    searchMode: Slot<Mode>,
    query: Slot<string>,
    results: Slot<seq<Video>>,
    nextToken: Slot<Option<string>>,
    prevToken: Slot<Option<string>>,
    pageToken: Slot<Option<string>>)

  const NO_DATA: UserData := UserData(Unset, Unset, Unset, Unset, Unset, Unset)

  /** Every key that a "next" or "prev" press reads has been written. */
  predicate ReadyToPage(d: UserData) {
    d.query.Set? && d.nextToken.Set? && d.prevToken.Set?
  }

  /** One page of search results with its neighbours' page tokens. */
  datatype Page = Page(results: seq<Video>, nextToken: Option<string>, prevToken: Option<string>)

  /** The search service: a query and an optional page token give a page. */
  type SearchProvider = (string, Option<string>) -> Page

  /** What a handler leaves in `paginate`: the next state, or the KeyError
      raised by reading a key of `context.user_data` that was never written. */
  datatype Outcome = Goto(state: State) | KeyError(key: string)

  /** What a handler puts in front of the user beside plain text. */
  datatype Reply = Plain | ShowKeyboard(layout: Layout) | Fetch(videoId: string)

  /** The bot's state: each user's `context.user_data`, the rows of the
      history table in insertion order, and the shared download limiter. */
  class Bot {
    var userData: map<UserId, UserData>
    var history: seq<(UserId, string)>
    const limiter: JobLimiter

    constructor (limiter: JobLimiter)
      ensures this.limiter == limiter
      ensures userData == map[] && history == []
    {
      this.limiter := limiter;
      userData := map[];
      history := [];
    }

    /** `context.user_data` of user u. */
    function DataOf(u: UserId): UserData
      reads this
    {
      if u in userData then userData[u] else NO_DATA
    }

    /** `start`: shows the menu keyboard and enters MENU. */
    method Start() returns (next: State)
      ensures next == Menu
    {
      next := Menu;
    }

    /** `menu`: a search mode is stored and the conversation asks for the
        search text; "cronologia" shows the history and stays; "esci" ends;
        anything else stays with nothing stored. */
    method HandleMenu(u: UserId, text: string) returns (next: State)
      modifies this
      ensures history == old(history)
      ensures RouteMenu(text).Pick? ==>
                next == Search &&
                userData == old(userData)[u := old(DataOf(u)).(searchMode := Set(RouteMenu(text).mode))]
      ensures RouteMenu(text) == ShowHistory ==> next == Menu && userData == old(userData)
      ensures RouteMenu(text) == Quit ==> next == End && userData == old(userData)
      ensures RouteMenu(text) == Unrecognised ==> next == Menu && userData == old(userData)
    {
      var t := Lower(text);
      if Contains(t, KEYWORDS[0]) {
        userData := userData[u := DataOf(u).(searchMode := Set(Titolo))];
        next := Search;
      } else if Contains(t, KEYWORDS[1]) {
        userData := userData[u := DataOf(u).(searchMode := Set(Artista))];
        next := Search;
      } else if Contains(t, KEYWORDS[2]) {
        userData := userData[u := DataOf(u).(searchMode := Set(Album))];
        next := Search;
      } else if Contains(t, KEYWORDS[3]) {
        next := Menu;
      } else if Contains(t, KEYWORDS[4]) {
        next := End;
      } else {
        next := Menu;
      }
    }

    /** `search`: stores the stripped query and logs it; with no results it
        goes back to MENU and writes nothing more; otherwise it saves the
        page and its tokens, clears the page token, shows the results and
        goes to PAGINATE. */
    method HandleSearch(u: UserId, text: string, provider: SearchProvider) returns (next: State, reply: Reply)
      modifies this
      ensures history == old(history) + [(u, Strip(text))]
      ensures var page := provider(Strip(text), None);
              var d := old(DataOf(u)).(query := Set(Strip(text)));
              if page.results == [] then
                next == Menu && reply == Plain && userData == old(userData)[u := d]
              else
                && next == Paginate
                && reply == ShowKeyboard(ShowResults(page.results, page.nextToken, page.prevToken))
                && userData == old(userData)[u := d.(results := Set(page.results),
                                                     nextToken := Set(page.nextToken),
                                                     prevToken := Set(page.prevToken),
                                                     pageToken := Set(None))]
      ensures next == Paginate ==> ReadyToPage(DataOf(u))
    {
      var query := Strip(text);
      var d := DataOf(u).(query := Set(query));
      history := history + [(u, query)];
      var page := provider(query, None);
      if page.results == [] {
        userData := userData[u := d];
        next, reply := Menu, Plain;
        return;
      }
      // The query is written before the search; the page follows it.
      userData := userData[u := d.(results := Set(page.results),
                                   nextToken := Set(page.nextToken),
                                   prevToken := Set(page.prevToken),
                                   pageToken := Set(None))];
      reply := ShowKeyboard(ShowResults(page.results, page.nextToken, page.prevToken));
      next := Paginate;
    }

    /** `paginate`: "next" and "prev" fetch the neighbouring page with the
        stored token and show it; "dl_" + id downloads that video when the
        user is under the ceiling, with `user_jobs` back where it was
        afterwards, and stays in PAGINATE when not; anything else goes back
        to MENU. */
    method HandlePaginate(u: UserId, data: string, provider: SearchProvider) returns (out: Outcome, reply: Reply)
      requires limiter.Valid()
      modifies this, limiter
      ensures limiter.Valid()
      ensures history == old(history)
      ensures ParseCallback(data).NextPage? || ParseCallback(data).PrevPage? ==>
                var d := old(DataOf(u));
                var slot := if ParseCallback(data).NextPage? then d.nextToken else d.prevToken;
                && limiter.userJobs == old(limiter.userJobs)
                && (slot.Unset? ==>
                      out == KeyError(if ParseCallback(data).NextPage? then "next_token" else "prev_token") &&
                      reply == Plain && userData == old(userData))
                && (slot.Set? && d.query.Unset? ==>
                      out == KeyError("query") && reply == Plain && userData == old(userData))
                && (slot.Set? && d.query.Set? ==>
                      var page := provider(d.query.value, slot.value);
                      && out == Goto(Paginate)
                      && reply == ShowKeyboard(ShowResults(page.results, page.nextToken, page.prevToken))
                      && userData == old(userData)[u := d.(results := Set(page.results),
                                                           nextToken := Set(page.nextToken),
                                                           prevToken := Set(page.prevToken),
                                                           pageToken := Set(slot.value))])
      ensures ParseCallback(data).Download? ==>
                && userData == old(userData)
                && (!Allowed(old(limiter.userJobs), u) ==>
                      out == Goto(Paginate) && reply == Plain && limiter.userJobs == old(limiter.userJobs))
                && (Allowed(old(limiter.userJobs), u) ==>
                      && out == Goto(Menu)
                      && reply == Fetch(ParseCallback(data).videoId)
                      && limiter.userJobs == Ended(Started(old(limiter.userJobs), u), u))
                && forall v :: Count(limiter.userJobs, v) == Count(old(limiter.userJobs), v)
      ensures ParseCallback(data).Unknown? ==>
                out == Goto(Menu) && reply == Plain &&
                userData == old(userData) && limiter.userJobs == old(limiter.userJobs)
      ensures (ParseCallback(data).NextPage? || ParseCallback(data).PrevPage?) && ReadyToPage(old(DataOf(u))) ==>
                out == Goto(Paginate) && ReadyToPage(DataOf(u))
    {
      reply := Plain;
      if data == NEXT_DATA || data == PREV_DATA {
        var d := DataOf(u);
        var slot := if data == NEXT_DATA then d.nextToken else d.prevToken;
        if slot.Unset? {
          out := KeyError(if data == NEXT_DATA then "next_token" else "prev_token");
          return;
        }
        if d.query.Unset? {
          out := KeyError("query");
          return;
        }
        var token := slot.value;
        var page := provider(d.query.value, token);
        d := d.(results := Set(page.results));
        d := d.(nextToken := Set(page.nextToken));
        d := d.(prevToken := Set(page.prevToken));
        d := d.(pageToken := Set(token));
        userData := userData[u := d];
        reply := ShowKeyboard(ShowResults(page.results, page.nextToken, page.prevToken));
        out := Goto(Paginate);
      } else if StartsWith(data, DOWNLOAD_PREFIX) {
        var videoId := data[|DOWNLOAD_PREFIX|..];
        var ok := limiter.CanDownload(u);
        if !ok {
          out := Goto(Paginate);
          return;
        }
        limiter.StartJob(u);
        // The download and the sending of the file: whether it succeeds,
        // finds no file or raises, only the message differs.
        reply := Fetch(videoId);
        limiter.EndJob(u);
        StartThenEndRestores(old(limiter.userJobs), u, u);
        forall v ensures Count(limiter.userJobs, v) == Count(old(limiter.userJobs), v) {
          StartThenEndRestores(old(limiter.userJobs), u, v);
        }
        out := Goto(Menu);
      } else {
        out := Goto(Menu);
      }
    }

    /** `cancel`: ends the conversation, whatever the state. */
    method Cancel() returns (next: State)
      ensures next == End
    {
      next := End;
    }
  }

}
