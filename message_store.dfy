/** The message-preset Pinia store: the preset list with a five-minute reload gate,
    the selected preset, type views and a case-insensitive search. The clock
    (`Date.now()`) is the parameter `now`; API calls resolve or reject. A preset has
    the fields the store reads: an id, a title, a content, a type and optional tags. */
module MessageStore {
  import opened Wrappers
  import opened Seqs
  import opened StoreCommon
  import opened Text

  datatype MessageView = MessageView(id: int, title: string, content: string, kind: string, tags: Option<string>)

  function Ids(s: seq<MessageView>): seq<int> {
    Keys(s, (m: MessageView) => m.id)
  }

  /** `CACHE_DURATION`: five minutes in milliseconds. */
  const CacheDuration: int := 5 * 60 * 1000

  /** `getMessagesByType`; `systemMessages`, `userMessages` and `assistantMessages`
      are it for "system", "user" and "assistant". */
  function OfType(s: seq<MessageView>, kind: string): (r: seq<MessageView>)
    ensures forall k :: 0 <= k < |r| ==> r[k] in s && r[k].kind == kind
    ensures forall k :: 0 <= k < |s| && s[k].kind == kind ==> s[k] in r
  {
    Filter(s, (m: MessageView) => m.kind == kind)
  }

  /** Views of two different types share no preset, and the three named views
      together hold no more presets than the list. */
  lemma {:induction false} TypeViewsDisjoint(s: seq<MessageView>)
    ensures forall m :: m in OfType(s, "system") ==> m !in OfType(s, "user") && m !in OfType(s, "assistant")
    ensures forall m :: m in OfType(s, "user") ==> m !in OfType(s, "assistant")
    ensures |OfType(s, "system")| + |OfType(s, "user")| + |OfType(s, "assistant")| <= |s|
  {
    if s != [] {
      TypeViewsDisjoint(s[1..]);
      var m := s[0];
      assert OfType(s, "system") == (if m.kind == "system" then [m] else []) + OfType(s[1..], "system");
      assert OfType(s, "user") == (if m.kind == "user" then [m] else []) + OfType(s[1..], "user");
      assert OfType(s, "assistant") == (if m.kind == "assistant" then [m] else []) + OfType(s[1..], "assistant");
    }
  }

  /** One preset matches a lowered query in its title, content or (non-empty) tags. */
  predicate Matches(m: MessageView, lowerQuery: string) {
    || Contains(Lower(m.title), lowerQuery)
    || Contains(Lower(m.content), lowerQuery)
    || (m.tags.Some? && m.tags.value != "" && Contains(Lower(m.tags.value), lowerQuery))
  }

  /** `searchMessages`: a blank query returns the whole list; otherwise the presets
      matching the lowered query, which is not trimmed. */
  function Search(s: seq<MessageView>, query: string): (r: seq<MessageView>)
    ensures IsBlank(query) ==> r == s
    ensures !IsBlank(query) ==>
      && (forall k :: 0 <= k < |r| ==> r[k] in s && Matches(r[k], Lower(query)))
      && (forall k :: 0 <= k < |s| && Matches(s[k], Lower(query)) ==> s[k] in r)
  {
    TrimEmptyIffBlank(query);
    if Trim(query) == [] then s
    else Filter(s, (m: MessageView) => Matches(m, Lower(query)))
  }

  /** The search is case-insensitive on ASCII letters: the query's case does not
      change the result. */
  lemma SearchIgnoresQueryCase(s: seq<MessageView>, q1: string, q2: string)
    requires Lower(q1) == Lower(q2) && IsBlank(q1) == IsBlank(q2)
    ensures Search(s, q1) == Search(s, q2)
  {
  }

  /** The query is lowered but not trimmed: surrounding spaces must occur in the
      preset for it to match. */
  lemma QueryIsNotTrimmed()
    ensures Search([MessageView(1, "foo", "", "user", None)], " foo") == []
  {
    var m := MessageView(1, "foo", "", "user", None);
    assert !IsBlank(" foo") by { assert !IsJsWhitespace(" foo"[1]); }
    assert !Matches(m, Lower(" foo"));
    assert Filter([m], (x: MessageView) => Matches(x, Lower(" foo"))) == [];
  }

  const LoadFailed := "加载消息预设失败"
  const AddFailed := "添加消息预设失败"
  const UpdateFailed := "更新消息预设失败"
  const DeleteFailed := "删除消息预设失败"

  /** The reload gate of `loadMessages`: a non-forced load of a non-empty list less
      than five minutes after the last one does nothing. */
  predicate UseCached(force: bool, presets: seq<MessageView>, now: int, lastLoadTime: int) {
    !force && |presets| > 0 && now - lastLoadTime < CacheDuration
  }

  class Store {
    var messagePresets: seq<MessageView>
    var selectedMessage: Option<MessageView>
    var loading: bool
    var error: Option<string>
    var lastLoadTime: int

    constructor ()
      ensures messagePresets == [] && selectedMessage == None && !loading && error == None && lastLoadTime == 0
    {
      messagePresets, selectedMessage, loading, error, lastLoadTime := [], None, false, None, 0;
    }

    /** `loadMessages(force)`: `call` is what the fetch would give; `fetched` says
        whether it was made. */
    method LoadMessages(force: bool, now: int, call: ApiCall<seq<MessageView>>) returns (fetched: bool)
      modifies this`messagePresets, this`loading, this`error, this`lastLoadTime
      ensures fetched <==> !UseCached(force, old(messagePresets), now, old(lastLoadTime))
      ensures !fetched ==>
        && messagePresets == old(messagePresets) && lastLoadTime == old(lastLoadTime)
        && loading == old(loading) && error == old(error)
      ensures fetched ==> !loading
      ensures fetched && call.Resolved? ==> messagePresets == call.value && lastLoadTime == now && error == None
      ensures fetched && call.Rejected? ==>
        && messagePresets == old(messagePresets) && lastLoadTime == old(lastLoadTime)
        && error == Some(ErrorText(call.thrown, LoadFailed))
    {
      if UseCached(force, messagePresets, now, lastLoadTime) {
        return false;
      }
      loading := true;
      error := None;
      match call {
        case Resolved(messages) =>
          messagePresets := messages;
          lastLoadTime := now;
        case Rejected(t) =>
          error := Some(ErrorText(t, LoadFailed));
      }
      loading := false;
      fetched := true;
    }

    /** `addMessage`. */
    method Add(call: ApiCall<MessageView>) returns (r: Result<MessageView, Thrown>)
      modifies this`messagePresets, this`loading, this`error
      ensures !loading
      ensures call.Resolved? ==>
        messagePresets == old(messagePresets) + [call.value] && error == None && r == Ok(call.value)
      ensures call.Rejected? ==>
        && messagePresets == old(messagePresets) && error == Some(ErrorText(call.thrown, AddFailed))
        && r == Err(call.thrown)
    {
      loading := true;
      error := None;
      match call {
        case Resolved(m) =>
          messagePresets := messagePresets + [m];
          r := Ok(m);
        case Rejected(t) =>
          error := Some(ErrorText(t, AddFailed));
          r := Err(t);
      }
      loading := false;
    }

    /** `updateMessage`: the server's preset replaces the first one with the id. */
    method Update(id: int, call: ApiCall<MessageView>) returns (r: Result<MessageView, Thrown>)
      modifies this`messagePresets, this`loading, this`error
      ensures !loading
      ensures call.Resolved? ==> error == None && r == Ok(call.value)
      ensures call.Resolved? ==> match IndexOfId(Ids(old(messagePresets)), id)
        case None => messagePresets == old(messagePresets)
        case Some(i) => messagePresets == old(messagePresets)[i := call.value]
      ensures call.Rejected? ==>
        && messagePresets == old(messagePresets) && error == Some(ErrorText(call.thrown, UpdateFailed))
        && r == Err(call.thrown)
    {
      loading := true;
      error := None;
      match call {
        case Resolved(updated) =>
          match IndexOfId(Ids(messagePresets), id) {
            case None =>
            case Some(i) => messagePresets := messagePresets[i := updated];
          }
          r := Ok(updated);
        case Rejected(t) =>
          error := Some(ErrorText(t, UpdateFailed));
          r := Err(t);
      }
      loading := false;
    }

    /** `deleteMessage`: drops every preset with the id, and the selection exactly
        when it is one of them. */
    method Delete(id: int, call: ApiCall<()>) returns (r: Outcome<Thrown>)
      modifies this`messagePresets, this`selectedMessage, this`loading, this`error
      ensures !loading
      ensures call.Resolved? ==>
        && messagePresets == Filter(old(messagePresets), (m: MessageView) => m.id != id)
        && (forall k :: 0 <= k < |messagePresets| ==> messagePresets[k].id != id)
        && error == None && r == Pass
      ensures call.Resolved? ==>
        selectedMessage == (if old(selectedMessage).Some? && old(selectedMessage).value.id == id
                            then None else old(selectedMessage))
      ensures call.Rejected? ==>
        && messagePresets == old(messagePresets) && selectedMessage == old(selectedMessage)
        && error == Some(ErrorText(call.thrown, DeleteFailed)) && r == Fail(call.thrown)
    {
      loading := true;
      error := None;
      match call {
        case Resolved(_) =>
          messagePresets := Filter(messagePresets, (m: MessageView) => m.id != id);
          if selectedMessage.Some? && selectedMessage.value.id == id {
            selectedMessage := None;
          }
          r := Pass;
        case Rejected(t) =>
          error := Some(ErrorText(t, DeleteFailed));
          r := Fail(t);
      }
      loading := false;
    }

    /** `selectMessage`. */
    method Select(m: Option<MessageView>)
      modifies this`selectedMessage
      ensures selectedMessage == m
    {
      selectedMessage := m;
    }

    /** `getMessageById`: the first preset with the id. */
    function GetById(id: int): (r: Option<MessageView>)
      reads this
      ensures r.None? <==> id !in Ids(messagePresets)
      ensures r.Some? ==> r.value.id == id && r.value == messagePresets[IndexOfId(Ids(messagePresets), id).value]
    {
      match IndexOfId(Ids(messagePresets), id)
      case None => None
      case Some(i) => Some(messagePresets[i])
    }
  }
}
