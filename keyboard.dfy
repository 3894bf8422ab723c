/**
 The inline keyboard that `show_results` lays out for a page of search results,
 and the reading of a pressed button's callback data in `paginate`.
 */
module Keyboard {
  import opened Optional
  import opened Text

  /** One search hit as `search_youtube` returns it. */
  datatype Video = Video(title: string, videoId: string)

  datatype Button = Button(text: string, callback: string)

  /** Rows of buttons, top to bottom. */
  type Layout = seq<seq<Button>>

  /** Longest label shown for a result. */
  const LABEL_LIMIT: nat := 50

  const DOWNLOAD_PREFIX: string := "dl_"
  const NEXT_DATA: string := "next"
  const PREV_DATA: string := "prev"
  const PREV_LABEL: string := "\U{2B05}\U{FE0F} Indietro"
  const NEXT_LABEL: string := "Avanti \U{27A1}\U{FE0F}"

  /** Python truthiness of a page token: present and not the empty string. */
  predicate Truthy(token: Option<string>) {
    token.Some? && token.value != ""
  }

  /** `s[:n]`. */
  function Truncate(s: string, n: nat): (r: string)
    ensures |r| <= n && StartsWith(s, r)
    ensures |s| <= n ==> r == s
    ensures |s| > n ==> |r| == n
  {
    if |s| <= n then s else s[..n]
  }

  /** What a pressed button asks for. */
  datatype Callback = NextPage | PrevPage | Download(videoId: string) | Unknown

  /** The callback data a button carries for a request; `Unknown` has none
      of its own and is given the empty string. */
  function CallbackData(c: Callback): string {
    match c
    case NextPage => NEXT_DATA
    case PrevPage => PREV_DATA
    case Download(v) => DOWNLOAD_PREFIX + v
    case Unknown => ""
  }

  /** The dispatch at the head of `paginate`: the exact strings "next" and
      "prev" first, then the "dl_" prefix, whose remainder `data[3:]` is the
      video id. */
  function ParseCallback(data: string): (c: Callback)
    ensures c.NextPage? <==> data == NEXT_DATA
    ensures c.PrevPage? <==> data == PREV_DATA
    ensures c.Download? ==> data == DOWNLOAD_PREFIX + c.videoId
    ensures c.Unknown? <==> data != NEXT_DATA && data != PREV_DATA && !StartsWith(data, DOWNLOAD_PREFIX)
  {
    if data == NEXT_DATA then NextPage
    else if data == PREV_DATA then PrevPage
    else if StartsWith(data, DOWNLOAD_PREFIX) then Download(data[|DOWNLOAD_PREFIX|..])
    else Unknown
  }

  /** Every request written as callback data reads back as itself; in
      particular "dl_" + v reads back as a download of v. */
  lemma ParseCallbackData(c: Callback)
    requires !c.Unknown?
    ensures ParseCallback(CallbackData(c)) == c
  {
    if c.Download? {
      var data := DOWNLOAD_PREFIX + c.videoId;
      assert data[0] == 'd';
      assert data != NEXT_DATA && data != PREV_DATA;
      assert data[..3] == DOWNLOAD_PREFIX;
      assert data[3..] == c.videoId;
    }
  }

  /** Conversely, any data that is understood is the data of what it was
      read as: the parse loses nothing. */
  lemma CallbackDataOfParse(data: string)
    requires !ParseCallback(data).Unknown?
    ensures CallbackData(ParseCallback(data)) == data
  {
    if StartsWith(data, DOWNLOAD_PREFIX) && data != NEXT_DATA && data != PREV_DATA {
      assert data == data[..3] + data[3..];
    }
  }

  /** Data is read as a download of v exactly when it is "dl_" + v. */
  lemma DownloadDataIff(data: string, v: string)
    ensures ParseCallback(data) == Download(v) <==> data == DOWNLOAD_PREFIX + v
  {
    if data == DOWNLOAD_PREFIX + v {
      ParseCallbackData(Download(v));
    }
    if ParseCallback(data) == Download(v) {
      CallbackDataOfParse(data);
    }
  }

  /** The button of one result: its title cut to LABEL_LIMIT characters,
      carrying "dl_" and its video id. */
  function ResultButton(v: Video): Button {
    Button(Truncate(v.title, LABEL_LIMIT), CallbackData(Download(v.videoId)))
  }

  /** The navigation buttons, "prev" before "next", each only when its token
      is truthy. */
  function NavRow(nextToken: Option<string>, prevToken: Option<string>): (row: seq<Button>)
    ensures |row| == (if Truthy(prevToken) then 1 else 0) + (if Truthy(nextToken) then 1 else 0)
    ensures forall j :: 0 <= j < |row| ==> row[j].callback in {PREV_DATA, NEXT_DATA}
    ensures Truthy(prevToken) ==> row[0] == Button(PREV_LABEL, PREV_DATA)
    ensures Truthy(nextToken) ==> row[|row| - 1] == Button(NEXT_LABEL, NEXT_DATA)
  {
    (if Truthy(prevToken) then [Button(PREV_LABEL, PREV_DATA)] else [])
    + (if Truthy(nextToken) then [Button(NEXT_LABEL, NEXT_DATA)] else [])
  }

  /** The keyboard of `show_results`: one single-button row per result, in
      result order, then the navigation row unless it would be empty. */
  function ShowResults(results: seq<Video>, nextToken: Option<string>, prevToken: Option<string>): (kb: Layout)
    ensures |kb| == |results| + (if Truthy(prevToken) || Truthy(nextToken) then 1 else 0)
    ensures forall i :: 0 <= i < |results| ==>
              |kb[i]| == 1 &&
              kb[i][0].text == Truncate(results[i].title, LABEL_LIMIT) &&
              ParseCallback(kb[i][0].callback) == Download(results[i].videoId)
    ensures |kb| > |results| ==> kb[|results|] == NavRow(nextToken, prevToken)
  {
    var rows := seq(|results|, i requires 0 <= i < |results| => [ResultButton(results[i])]);
    var nav := NavRow(nextToken, prevToken);
    var kb := if nav != [] then rows + [nav] else rows;
    assert forall i :: 0 <= i < |results| ==> kb[i] == [ResultButton(results[i])];
    forall i | 0 <= i < |results|
      ensures ParseCallback(kb[i][0].callback) == Download(results[i].videoId)
    {
      ParseCallbackData(Download(results[i].videoId));
    }
    kb
  }

  /** Some button of the keyboard carries this callback data. */
  predicate HasCallback(kb: Layout, data: string) {
    exists i, j :: 0 <= i < |kb| && 0 <= j < |kb[i]| && kb[i][j].callback == data
  }

  lemma ResultDataIsNotNavigation(v: Video)
    ensures ResultButton(v).callback != PREV_DATA && ResultButton(v).callback != NEXT_DATA
  {
    var d := ResultButton(v).callback;
    assert d[0] == 'd';
    assert PREV_DATA[0] == 'p' && NEXT_DATA[0] == 'n';
  }

  /** A "prev" button is offered exactly when the previous-page token is
      truthy, and a "next" button exactly when the next-page token is. */
  lemma NavigationOffered(results: seq<Video>, nextToken: Option<string>, prevToken: Option<string>)
    ensures HasCallback(ShowResults(results, nextToken, prevToken), PREV_DATA) <==> Truthy(prevToken)
    ensures HasCallback(ShowResults(results, nextToken, prevToken), NEXT_DATA) <==> Truthy(nextToken)
  {
    var kb: Layout := ShowResults(results, nextToken, prevToken);
    var nav := NavRow(nextToken, prevToken);
    forall i: int, j: int | 0 <= i < |results| && 0 <= j < |kb[i]|
      ensures kb[i][j].callback != PREV_DATA && kb[i][j].callback != NEXT_DATA
    {
      assert kb[i][j] == ResultButton(results[i]);
      ResultDataIsNotNavigation(results[i]);
    }
    if Truthy(prevToken) {
      assert kb[|results|][0].callback == PREV_DATA;
    }
    if Truthy(nextToken) {
      assert kb[|results|][|nav| - 1].callback == NEXT_DATA;
    }
  }

  /** With both tokens truthy the navigation row is exactly "prev", "next". */
  lemma PrevBeforeNext(results: seq<Video>, nextToken: Option<string>, prevToken: Option<string>)
    requires Truthy(prevToken) && Truthy(nextToken)
    ensures var kb := ShowResults(results, nextToken, prevToken);
            |kb| == |results| + 1 &&
            kb[|results|] == [Button(PREV_LABEL, PREV_DATA), Button(NEXT_LABEL, NEXT_DATA)]
  {
  }

  /** Every button the keyboard offers is understood by `paginate`; none
      leads to its "unknown command" branch. */
  lemma EveryButtonUnderstood(results: seq<Video>, nextToken: Option<string>, prevToken: Option<string>)
    ensures var kb := ShowResults(results, nextToken, prevToken);
            forall i, j :: 0 <= i < |kb| && 0 <= j < |kb[i]| ==> !ParseCallback(kb[i][j].callback).Unknown?
  {
    var kb: Layout := ShowResults(results, nextToken, prevToken);
    forall i: int, j: int | 0 <= i < |kb| && 0 <= j < |kb[i]|
      ensures !ParseCallback(kb[i][j].callback).Unknown?
    {
      if i < |results| {
        assert j == 0;
      } else {
        assert kb[i][j].callback in {PREV_DATA, NEXT_DATA};
      }
    }
  }

}
