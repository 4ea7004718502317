/**
 * The chat directory that startup builds: one entry per chat whose
 * `get_chat` call returned, in enumeration order (`ALL_CHATS`), and the
 * entries whose title the classifier accepts (`STUDY_CHATS`).
 */
module Directory {
  import opened Wrappers
  import opened Adapter
  import opened Classifier

  /** The `{"id": ..., "title": ...}` record kept for a chat. */
  datatype ChatEntry = ChatEntry(id: int, title: string)

  /** The placeholder title of a chat that has neither a title nor a first name. */
  const Untitled: string := "Sin título"

  /**
   * `getattr(chat, "title", None) or getattr(chat, "first_name", "Sin título")`:
   * a non-empty title wins; otherwise the first name, if the object has
   * one (even an empty one); otherwise the placeholder.
   */
  function ChatTitle(c: ChatInfo): (t: string)
    ensures c.title.Some? && c.title.value != "" ==> t == c.title.value
    ensures Some(t) == c.title || Some(t) == c.firstName || t == Untitled
    ensures (c.title.None? || c.title.value == "") && c.firstName.Some? ==> t == c.firstName.value
    ensures c.title.None? && c.firstName.None? ==> t == Untitled
    ensures t == "" <==> (c.title.None? || c.title.value == "") && c.firstName == Some("")
  {
    if c.title.Some? && c.title.value != "" then c.title.value
    else if c.firstName.Some? then c.firstName.value
    else Untitled
  }

  function Entry(c: ChatInfo): ChatEntry {
    ChatEntry(c.id, ChatTitle(c))
  }

  /** `all_chats` after the loop: an entry for each `get_chat` that returned, in order. */
  function AllChats(fetched: seq<Reply<ChatInfo>>): (all: seq<ChatEntry>)
    ensures |all| <= |fetched|
  {
    if fetched == [] then []
    else
      AllChats(fetched[..|fetched| - 1]) +
      match fetched[|fetched| - 1]
      case Returned(c) => [Entry(c)]
      case Raised => []
  }

  /** `study_chats` after the loop: the entries of `all` whose title is a study title. */
  function StudyFilter(all: seq<ChatEntry>): (study: seq<ChatEntry>)
    ensures |study| <= |all|
  {
    if all == [] then []
    else
      StudyFilter(all[..|all| - 1]) +
      if IsStudyChat(all[|all| - 1].title) then [all[|all| - 1]] else []
  }

  /**
   * One more fetch, as the enumeration loop does it: a returned chat's entry
   * goes at the end of the directory, and at the end of the study list when
   * its title is a study title; a raised fetch changes neither.
   */
  lemma EnumerationStep(fetched: seq<Reply<ChatInfo>>, r: Reply<ChatInfo>, all: seq<ChatEntry>, study: seq<ChatEntry>)
    requires all == AllChats(fetched) && study == StudyFilter(all)
    ensures r.Raised? ==> all == AllChats(fetched + [r]) && study == StudyFilter(all)
    ensures r.Returned? ==> all + [Entry(r.value)] == AllChats(fetched + [r])
    ensures r.Returned? && IsStudyChat(Entry(r.value).title) ==>
      study + [Entry(r.value)] == StudyFilter(all + [Entry(r.value)])
    ensures r.Returned? && !IsStudyChat(Entry(r.value).title) ==>
      study == StudyFilter(all + [Entry(r.value)])
  {
    assert (fetched + [r])[..|fetched|] == fetched;
    if r.Returned? {
      assert (all + [Entry(r.value)])[..|all|] == all;
    }
  }

  /** The enumeration keeps call order: the entries of a split run are the entries of its parts. */
  lemma {:induction false} AllChatsAppend(a: seq<Reply<ChatInfo>>, b: seq<Reply<ChatInfo>>)
    ensures AllChats(a + b) == AllChats(a) + AllChats(b)
    decreases |b|
  {
    if b == [] {
      assert a + b == a;
    } else {
      assert (a + b)[..|a + b| - 1] == a + b[..|b| - 1];
      AllChatsAppend(a, b[..|b| - 1]);
    }
  }

  /** An entry is in the directory exactly when some `get_chat` call returned that chat. */
  lemma {:induction false} AllChatsMembership(fetched: seq<Reply<ChatInfo>>, e: ChatEntry)
    ensures e in AllChats(fetched) <==>
      exists j :: 0 <= j < |fetched| && fetched[j].Returned? && e == Entry(fetched[j].value)
  {
    if fetched != [] {
      var init := fetched[..|fetched| - 1];
      AllChatsMembership(init, e);
      if exists j :: 0 <= j < |init| && init[j].Returned? && e == Entry(init[j].value) {
        var j :| 0 <= j < |init| && init[j].Returned? && e == Entry(init[j].value);
        assert fetched[j] == init[j];
      }
      if exists j :: 0 <= j < |fetched| && fetched[j].Returned? && e == Entry(fetched[j].value) {
        var j :| 0 <= j < |fetched| && fetched[j].Returned? && e == Entry(fetched[j].value);
        if j < |init| {
          assert init[j] == fetched[j];
        }
      }
    }
  }

  /**
   * Study membership: an entry is a study chat exactly when it is in the
   * directory and its title is a study title.
   */
  lemma {:induction false} StudyMembership(all: seq<ChatEntry>, e: ChatEntry)
    ensures e in StudyFilter(all) <==> e in all && IsStudyChat(e.title)
  {
    if all != [] {
      var init := all[..|all| - 1];
      StudyMembership(init, e);
      assert all == init + [all[|all| - 1]];
    }
  }

  /**
   * The study chats form a subsequence of the directory: each one sits at an
   * index of `all`, and the indices increase.
   */
  lemma {:induction false} StudySubsequence(all: seq<ChatEntry>) returns (idx: seq<nat>)
    ensures |idx| == |StudyFilter(all)|
    ensures forall k :: 0 <= k < |idx| ==> idx[k] < |all| && StudyFilter(all)[k] == all[idx[k]]
    ensures forall k, l :: 0 <= k < l < |idx| ==> idx[k] < idx[l]
  {
    if all == [] {
      idx := [];
    } else {
      var n := |all| - 1;
      var prev := StudyFilter(all[..n]);
      idx := StudySubsequence(all[..n]);
      assert forall k :: 0 <= k < |idx| ==> all[..n][idx[k]] == all[idx[k]];
      if IsStudyChat(all[n].title) {
        assert StudyFilter(all) == prev + [all[n]];
        idx := idx + [n];
      } else {
        assert StudyFilter(all) == prev;
      }
    }
  }

  /**
   * A chat whose `get_chat` raised is in neither list, provided the client
   * answers each `get_chat` with the chat asked for and the enumeration lists
   * each id once.
   */
  lemma FailedChatAbsent(ids: seq<int>, fetched: seq<Reply<ChatInfo>>, j: int)
    requires |fetched| == |ids|
    requires forall k :: 0 <= k < |ids| && fetched[k].Returned? ==> fetched[k].value.id == ids[k]
    requires forall k, l :: 0 <= k < l < |ids| ==> ids[k] != ids[l]
    requires 0 <= j < |ids| && fetched[j].Raised?
    ensures forall e :: e in AllChats(fetched) ==> e.id != ids[j]
    ensures forall e :: e in StudyFilter(AllChats(fetched)) ==> e.id != ids[j]
  {
    forall e | e in AllChats(fetched)
      ensures e.id != ids[j]
    {
      AllChatsMembership(fetched, e);
    }
    forall e | e in StudyFilter(AllChats(fetched))
      ensures e.id != ids[j]
    {
      StudyMembership(AllChats(fetched), e);
    }
  }

  /** Three chats listed, the second one's `get_chat` raises: only chats 1 and 3 are kept. */
  lemma SkippedChatExample()
    ensures AllChats([Returned(ChatInfo(1, Some("UNED PEC"), None)), Raised,
                      Returned(ChatInfo(3, None, Some("Ana")))])
         == [ChatEntry(1, "UNED PEC"), ChatEntry(3, "Ana")]
  {
    var f: seq<Reply<ChatInfo>> := [Returned(ChatInfo(1, Some("UNED PEC"), None)), Raised,
                                    Returned(ChatInfo(3, None, Some("Ana")))];
    assert f[..|f| - 1] == f[..2];
    assert f[..2][..1] == [f[0]];
    assert [f[0]][..0] == [];
    assert AllChats([f[0]]) == [ChatEntry(1, "UNED PEC")];
    assert AllChats(f[..2]) == [ChatEntry(1, "UNED PEC")];
    assert Entry(ChatInfo(3, None, Some("Ana"))) == ChatEntry(3, "Ana");
  }

  /** Of those two chats only the one titled with a keyword is a study chat. */
  lemma SkippedChatStudyExample()
    ensures StudyFilter([ChatEntry(1, "UNED PEC"), ChatEntry(3, "Ana")]) == [ChatEntry(1, "UNED PEC")]
  {
    var all := [ChatEntry(1, "UNED PEC"), ChatEntry(3, "Ana")];
    assert all[..1] == [ChatEntry(1, "UNED PEC")];
    assert all[..1][..0] == [];
    assert IsStudyChat("UNED PEC") by {
      assert Lower("UNED PEC") == "uned pec";
      assert OccursAt(Lower("UNED PEC"), StudyKeywords[0], 0);
      IsStudyChatIff("UNED PEC");
    }
    assert !IsStudyChat("Ana") by {
      assert Lower("Ana") == "ana";
      var absent := "upppptpssttde";
      forall j | 0 <= j < |StudyKeywords|
        ensures !Contains("ana", StudyKeywords[j])
      {
        MissingCharNotContained("ana", StudyKeywords[j], absent[j]);
      }
      AnyKeywordIff("ana", StudyKeywords);
    }
  }
}
