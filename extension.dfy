/**
 * The extension side (app/main.js): the command handler that receives the
 * bridge's messages, dispatches on the request type, and answers with a
 * response object posted back on the native-messaging port.
 *
 * The Chrome APIs are inputs: the tabs `chrome.tabs.query` finds by title,
 * and the windows (with their tabs) `chrome.windows.getAll` lists. The
 * `executeScript` and `tabs.remove` callbacks always run, so their results
 * do not change the outcome. A handler's outcome is the response it posts,
 * or None when it posts nothing (the message is ignored, or a property
 * access on null or undefined throws a TypeError).
 */
module Extension {
  import opened JsonValues
  import Messages

  // Response types.
  const Success := 0
  const Error := 1
  const Unknown := 2

  const UndeterminedType := "Request type could not be determined"
  const TabNotFound := "Tab not found"
  const TitleReplaced := "Tab title replaced"
  const NoMatchingTabs := "No matching tabs to close"
  const TabsClosed := "Tabs closed"

  datatype Tab = Tab(id: int, windowId: int)
  datatype Window = Window(tabs: seq<Tab>)

  /** What the Chrome APIs report for one command. */
  datatype ChromeState = ChromeState(titleMatches: seq<Tab>, windows: seq<Window>)

  /**
   * `sendFLTSResponse`: the object posted back to the bridge, which the
   * client loads into a ChromeResponse carrying exactly these values.
   */
  function SendFLTSResponse(responseType: int, data: map<string, Json>, requestId: Json): (r: Json)
    ensures r.Obj? && r.members.Keys == {"type", "data", "source", "requestId"}
    ensures Messages.LoadDict(Messages.ResponseInit, r.members) == Messages.MessageFields(requestId, Str("chrome"), Num(responseType), Obj(data))
  {
    var m := map["type" := Num(responseType), "data" := Obj(data), "source" := Str("chrome"), "requestId" := requestId];
    Messages.LoadDictFields(Messages.ResponseInit, m);
    Obj(m)
  }

  /** `obj.key` on a JSON value: None stands for `undefined`. */
  function Property(obj: Json, key: string): Option<Json>
  {
    if obj.Obj? && key in obj.members then Some(obj.members[key]) else None
  }

  /** `renameTab`: the response once the title query has answered with `matches`. */
  function RenameTab(data: Json, requestId: Json, matches: seq<Tab>): (r: Option<Json>)
    ensures r.Some? <==> data != Null
    ensures r.Some? ==> IsResponseTo(r.value, requestId) && (r.value.members["type"] == Num(Success) <==> |matches| > 0)
  {
    if data == Null then None  // data.current_name throws
    else if |matches| > 0 then
      Some(SendFLTSResponse(Success, map["msg" := Str(TitleReplaced), "tabId" := Num(matches[0].id), "windowId" := Num(matches[0].windowId)], requestId))
    else Some(SendFLTSResponse(Error, map["msg" := Str(TabNotFound)], requestId))
  }

  /** The ids of all tabs of all windows, window by window. */
  function AllTabIds(windows: seq<Window>): seq<int>
  {
    if windows == [] then []
    else AllTabIds(windows[..|windows| - 1]) + TabIds(windows[|windows| - 1].tabs)
  }

  function TabIds(tabs: seq<Tab>): seq<int>
  {
    if tabs == [] then [] else TabIds(tabs[..|tabs| - 1]) + [tabs[|tabs| - 1].id]
  }

  /** `allTabIds.indexOf(t) !== -1`: strict equality, so only a number can match. */
  predicate Exists(t: Json, all: seq<int>)
  {
    t.Num? && t.n in all
  }

  /** The requested ids that exist, in request order, duplicates kept. */
  function ExistingTabIds(tabIds: seq<Json>, all: seq<int>): seq<Json>
  {
    if tabIds == [] then []
    else
      var last := tabIds[|tabIds| - 1];
      ExistingTabIds(tabIds[..|tabIds| - 1], all) + if Exists(last, all) then [last] else []
  }

  /**
   * `getExistingTabIds`: collect every tab id of every window, then keep
   * the requested ids found among them.
   */
  method GetExistingTabIds(tabIds: seq<Json>, windows: seq<Window>) returns (validTabIds: seq<Json>)
    ensures validTabIds == ExistingTabIds(tabIds, AllTabIds(windows))
  {
    var allTabIds: seq<int> := [];
    for i := 0 to |windows|
      invariant allTabIds == AllTabIds(windows[..i])
    {
      assert windows[..i + 1][..i] == windows[..i];
      for j := 0 to |windows[i].tabs|
        invariant allTabIds == AllTabIds(windows[..i]) + TabIds(windows[i].tabs[..j])
      {
        assert windows[i].tabs[..j + 1][..j] == windows[i].tabs[..j];
        allTabIds := allTabIds + [windows[i].tabs[j].id];
      }
      assert windows[i].tabs[..|windows[i].tabs|] == windows[i].tabs;
    }
    assert windows[..|windows|] == windows;
    validTabIds := [];
    for t := 0 to |tabIds|
      invariant validTabIds == ExistingTabIds(tabIds[..t], allTabIds)
    {
      assert tabIds[..t + 1][..t] == tabIds[..t];
      if Exists(tabIds[t], allTabIds) {
        validTabIds := validTabIds + [tabIds[t]];
      }
    }
    assert tabIds[..|tabIds|] == tabIds;
  }

  /**
   * `closeTabs`: the requested ids that exist. An array is filtered; null
   * or undefined makes `tabIds.length` throw; any other value has no
   * numeric elements, so nothing is valid.
   */
  function ValidIds(data: Json, windows: seq<Window>): (r: Option<seq<Json>>)
    ensures r.Some? <==> data.Obj? && "tabIds" in data.members && data.members["tabIds"] != Null
    ensures r.Some? ==> forall t :: t in r.value ==> Exists(t, AllTabIds(windows))
    ensures r.Some? && data.members["tabIds"].Arr? ==>
      var ids := data.members["tabIds"].items;
      && (forall t :: t in r.value <==> t in ids && Exists(t, AllTabIds(windows)))
      && (forall t :: multiset(r.value)[t] == if Exists(t, AllTabIds(windows)) then multiset(ids)[t] else 0)
      && IsSubsequence(r.value, ids)
    ensures r.Some? && !data.members["tabIds"].Arr? ==> r.value == []
  {
    if data == Null then None
    else
      match Property(data, "tabIds")
      case None => None
      case Some(Null) => None
      case Some(Arr(ids)) =>
        ExistingTabIdsSpec(ids, AllTabIds(windows));
        ExistingTabIdsOrdered(ids, AllTabIds(windows));
        Some(ExistingTabIds(ids, AllTabIds(windows)))
      case Some(_) => Some([])
  }

  /** `closeTabs`: ERROR when no requested tab exists, else SUCCESS once they are removed. */
  function CloseTabs(data: Json, requestId: Json, windows: seq<Window>): (r: Option<Json>)
    ensures r.Some? <==> ValidIds(data, windows).Some?
    ensures r.Some? ==> IsResponseTo(r.value, requestId) && (r.value.members["type"] == Num(Success) <==> |ValidIds(data, windows).value| > 0)
  {
    match ValidIds(data, windows)
    case None => None
    case Some(valid) =>
      if |valid| == 0 then Some(SendFLTSResponse(Error, map["msg" := Str(NoMatchingTabs)], requestId))
      else Some(SendFLTSResponse(Success, map["msg" := Str(TabsClosed)], requestId))
  }

  /** `parseCommand`: RENAME (0) renames, CLOSE (1) closes, anything else is an ERROR. */
  function ParseCommand(messageType: Json, data: Json, requestId: Json, chrome: ChromeState): (r: Option<Json>)
    ensures r.Some? ==> IsResponseTo(r.value, requestId)
    ensures r.None? ==> (messageType == Num(0) && data == Null) || (messageType == Num(1) && ValidIds(data, chrome.windows).None?)
  {
    if messageType == Num(Messages.RequestRename) then RenameTab(data, requestId, chrome.titleMatches)
    else if messageType == Num(Messages.RequestClose) then CloseTabs(data, requestId, chrome.windows)
    else Some(SendFLTSResponse(Error, map["msg" := Str(UndeterminedType)], requestId))
  }

  /**
   * The shape `onFLTSCommand` accepts: an object with own properties type,
   * data and requestId. An own "hasOwnProperty" member shadows the method,
   * so calling it throws and the message goes unanswered.
   */
  predicate WellShaped(message: Json)
  {
    && message.Obj? && "hasOwnProperty" !in message.members
    && "type" in message.members && "data" in message.members && "requestId" in message.members
  }

  /** `onFLTSCommand`: dispatch a well-shaped message, ignore anything else. */
  function OnFLTSCommand(message: Json, chrome: ChromeState): (r: Option<Json>)
    ensures r.Some? ==> WellShaped(message) && IsResponseTo(r.value, message.members["requestId"])
  {
    if WellShaped(message) then
      ParseCommand(message.members["type"], message.members["data"], message.members["requestId"], chrome)
    else None
  }

  // -----------------------------------------------------------------------
  // Properties

  /** A response object, as the bridge's ChromeResponse reads it. */
  predicate IsResponseTo(r: Json, requestId: Json)
  {
    && r.Obj? && r.members.Keys == {"type", "data", "source", "requestId"}
    && r.members["source"] == Str("chrome") && r.members["requestId"] == requestId
    && r.members["type"] in {Num(Success), Num(Error)}
  }

  /**
   * Every command answered gets one response from "chrome" that echoes its
   * request id and is SUCCESS or ERROR; a message without the required
   * shape is never answered.
   */
  lemma OnFLTSCommandResponds(message: Json, chrome: ChromeState)
    ensures !WellShaped(message) ==> OnFLTSCommand(message, chrome) == None
    ensures OnFLTSCommand(message, chrome).Some? ==>
      WellShaped(message) && IsResponseTo(OnFLTSCommand(message, chrome).value, message.members["requestId"])
  {
  }

  /** Which commands get no response: ill-shaped messages, and null where a property is read. */
  lemma OnFLTSCommandSilent(message: Json, chrome: ChromeState)
    requires WellShaped(message)
    ensures var t := message.members["type"];
      var d := message.members["data"];
      OnFLTSCommand(message, chrome).None? <==>
        (t == Num(0) && d == Null) || (t == Num(1) && ValidIds(d, chrome.windows).None?)
  {
  }

  /** An unknown request type gets an ERROR that says so, echoing the request id. */
  lemma UnknownTypeIsError(message: Json, chrome: ChromeState)
    requires WellShaped(message)
    requires message.members["type"] != Num(0) && message.members["type"] != Num(1)
    ensures OnFLTSCommand(message, chrome) ==
      Some(Obj(map["type" := Num(Error), "data" := Obj(map["msg" := Str(UndeterminedType)]), "source" := Str("chrome"),
                   "requestId" := message.members["requestId"]]))
  {
  }

  /** A rename answers with the first matching tab, or ERROR "Tab not found" when none matches. */
  lemma RenameOutcome(data: Json, requestId: Json, matches: seq<Tab>)
    requires data != Null
    ensures var r := RenameTab(data, requestId, matches).value;
      && RenameTab(data, requestId, matches).Some?
      && (r.members["type"] == Num(Success) <==> |matches| > 0)
      && (|matches| > 0 ==> r.members["data"] == Obj(map["msg" := Str(TitleReplaced), "tabId" := Num(matches[0].id), "windowId" := Num(matches[0].windowId)]))
      && (|matches| == 0 ==> r.members["data"] == Obj(map["msg" := Str(TabNotFound)]))
  {
  }

  /** A close answers SUCCESS iff some requested tab exists. */
  lemma CloseOutcome(data: Json, requestId: Json, windows: seq<Window>)
    requires ValidIds(data, windows).Some?
    ensures var r := CloseTabs(data, requestId, windows).value;
      && CloseTabs(data, requestId, windows).Some?
      && (r.members["type"] == Num(Success) <==> exists t :: t in ValidIds(data, windows).value)
      && (data.members["tabIds"].Arr? ==>
            (r.members["type"] == Num(Success) <==> exists t :: t in data.members["tabIds"].items && Exists(t, AllTabIds(windows))))
      && (r.members["type"] == Num(Success) ==> r.members["data"] == Obj(map["msg" := Str(TabsClosed)]))
      && (r.members["type"] == Num(Error) ==> r.members["data"] == Obj(map["msg" := Str(NoMatchingTabs)]))
  {
    var valid := ValidIds(data, windows).value;
    if |valid| > 0 {
      assert valid[0] in valid;
    }
    if data.members["tabIds"].Arr? && |valid| > 0 {
      assert valid[0] in data.members["tabIds"].items && Exists(valid[0], AllTabIds(windows));
    }
  }

  /** Exactly the requested ids that exist are kept, each as often as it was requested. */
  lemma {:induction false} ExistingTabIdsSpec(tabIds: seq<Json>, all: seq<int>)
    ensures forall t :: t in ExistingTabIds(tabIds, all) <==> t in tabIds && Exists(t, all)
    ensures forall t :: multiset(ExistingTabIds(tabIds, all))[t] == if Exists(t, all) then multiset(tabIds)[t] else 0
  {
    if tabIds != [] {
      var init := tabIds[..|tabIds| - 1];
      var last := tabIds[|tabIds| - 1];
      ExistingTabIdsSpec(init, all);
      assert tabIds == init + [last];
      var kept := if Exists(last, all) then [last] else [];
      assert ExistingTabIds(tabIds, all) == ExistingTabIds(init, all) + kept;
      assert multiset(tabIds) == multiset(init) + multiset{last};
      assert multiset(ExistingTabIds(tabIds, all)) == multiset(ExistingTabIds(init, all)) + multiset(kept);
    }
  }

  /** The kept ids appear in the order they were requested: the result is a subsequence of the request. */
  lemma {:induction false} ExistingTabIdsOrdered(tabIds: seq<Json>, all: seq<int>)
    ensures IsSubsequence(ExistingTabIds(tabIds, all), tabIds)
  {
    if tabIds != [] {
      var init := tabIds[..|tabIds| - 1];
      var last := tabIds[|tabIds| - 1];
      ExistingTabIdsOrdered(init, all);
      SubsequenceExtend(ExistingTabIds(init, all), init, last, Exists(last, all));
      assert tabIds == init + [last];
      assert ExistingTabIds(tabIds, all) == if Exists(last, all) then ExistingTabIds(init, all) + [last] else ExistingTabIds(init, all);
    }
  }

  /** `s` is obtained from `t` by deleting elements. */
  predicate IsSubsequence<T(==)>(s: seq<T>, t: seq<T>)
    decreases |t|
  {
    if s == [] then true
    else if t == [] then false
    else if s[|s| - 1] == t[|t| - 1] then IsSubsequence(s[..|s| - 1], t[..|t| - 1])
    else IsSubsequence(s, t[..|t| - 1])
  }

  lemma {:induction false} SubsequenceExtend<T>(s: seq<T>, t: seq<T>, x: T, keep: bool)
    requires IsSubsequence(s, t)
    ensures IsSubsequence(if keep then s + [x] else s, t + [x])
    decreases |t|
  {
    var t' := t + [x];
    assert t'[..|t'| - 1] == t;
    if keep {
      assert (s + [x])[..|s|] == s;
    } else if s != [] && s[|s| - 1] == x {
      SubsequenceOfPrefix(s[..|s| - 1], t, s);
    }
  }

  lemma {:induction false} SubsequenceOfPrefix<T>(s': seq<T>, t: seq<T>, s: seq<T>)
    requires s != [] && s' == s[..|s| - 1] && IsSubsequence(s, t)
    ensures IsSubsequence(s', t)
    decreases |t|, 0
  {
    if t != [] {
      if s[|s| - 1] == t[|t| - 1] {
        SubsequenceWeaken(s', t[..|t| - 1], t[|t| - 1]);
      } else {
        SubsequenceOfPrefix(s', t[..|t| - 1], s);
        SubsequenceWeaken(s', t[..|t| - 1], t[|t| - 1]);
      }
    }
  }

  lemma {:induction false} SubsequenceWeaken<T>(s: seq<T>, t: seq<T>, x: T)
    requires IsSubsequence(s, t)
    ensures IsSubsequence(s, t + [x])
    decreases |t|, 1
  {
    var t' := t + [x];
    assert t'[..|t'| - 1] == t;
    if s != [] && s[|s| - 1] == x {
      SubsequenceOfPrefix(s[..|s| - 1], t, s);
    }
  }

  /** The tabs of every window are exactly the ids `getExistingTabIds` checks against. */
  lemma {:induction false} AllTabIdsSpec(windows: seq<Window>)
    ensures forall id :: id in AllTabIds(windows) <==> exists w, k :: 0 <= w < |windows| && 0 <= k < |windows[w].tabs| && windows[w].tabs[k].id == id
  {
    if windows != [] {
      var init := windows[..|windows| - 1];
      AllTabIdsSpec(init);
      TabIdsSpec(windows[|windows| - 1].tabs);
      forall id | id in AllTabIds(windows)
        ensures exists w, k :: 0 <= w < |windows| && 0 <= k < |windows[w].tabs| && windows[w].tabs[k].id == id
      {
        if id in AllTabIds(init) {
          var w, k :| 0 <= w < |init| && 0 <= k < |init[w].tabs| && init[w].tabs[k].id == id;
          assert windows[w] == init[w];
        } else {
          var k :| 0 <= k < |windows[|windows| - 1].tabs| && windows[|windows| - 1].tabs[k].id == id;
          assert windows[|windows| - 1].tabs[k].id == id;
        }
      }
      forall id | exists w, k :: 0 <= w < |windows| && 0 <= k < |windows[w].tabs| && windows[w].tabs[k].id == id
        ensures id in AllTabIds(windows)
      {
        var w, k :| 0 <= w < |windows| && 0 <= k < |windows[w].tabs| && windows[w].tabs[k].id == id;
        if w < |windows| - 1 {
          assert init[w] == windows[w];
        }
      }
    }
  }

  lemma {:induction false} TabIdsSpec(tabs: seq<Tab>)
    ensures forall id :: id in TabIds(tabs) <==> exists k :: 0 <= k < |tabs| && tabs[k].id == id
  {
    if tabs != [] {
      var init := tabs[..|tabs| - 1];
      TabIdsSpec(init);
      forall id | id in TabIds(tabs) ensures exists k :: 0 <= k < |tabs| && tabs[k].id == id {
        if id in TabIds(init) {
          var k :| 0 <= k < |init| && init[k].id == id;
          assert tabs[k] == init[k];
        } else {
          assert tabs[|tabs| - 1].id == id;
        }
      }
      forall id | exists k :: 0 <= k < |tabs| && tabs[k].id == id ensures id in TabIds(tabs) {
        var k :| 0 <= k < |tabs| && tabs[k].id == id;
        if k < |tabs| - 1 {
          assert init[k] == tabs[k];
        }
      }
    }
  }

  /**
   * The extension's response, read by the bridge's client as a
   * ChromeResponse, carries the extension's type and data, source "chrome"
   * and the echoed request id: the two sides use the same numbering.
   */
  lemma ResponseReadByClient(responseType: int, data: map<string, Json>, requestId: Json)
    ensures var r := SendFLTSResponse(responseType, data, requestId);
      Messages.LoadDict(Messages.ResponseInit, r.members) == Messages.MessageFields(requestId, Str("chrome"), Num(responseType), Obj(data))
    ensures Messages.IsSuccessful(Messages.LoadDict(Messages.ResponseInit, SendFLTSResponse(responseType, data, requestId).members)) <==> responseType == Success
    ensures Success == Messages.ResponseSuccess && Error == Messages.ResponseError && Unknown == Messages.ResponseUnknown
  {
    Messages.LoadDictFields(Messages.ResponseInit, SendFLTSResponse(responseType, data, requestId).members);
  }
}
