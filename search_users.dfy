/** The contact-search dialog: normalising the query, filtering the users,
    the set-like selection of group members, the create-group guard and the
    "last seen" label. */
module SearchUsers {
  import opened Wrappers
  import opened Lists
  import opened Text
  import opened IndexPage

  /** `searchQuery.toLowerCase().replace('@', '')`. */
  function SearchTerm(query: string): (t: string)
    ensures '@' !in ToLower(query) ==> t == ToLower(query)
    ensures '@' in ToLower(query) ==>
              (|t| == |query| - 1 &&
               var i := IndexOf(ToLower(query), '@');
               t == ToLower(query)[..i] + ToLower(query)[i + 1..])
  {
    RemoveFirst(ToLower(query), '@')
  }

  /** The term has no capital letters and loses at most the first '@'. */
  lemma SearchTermSpec(query: string)
    ensures forall k :: 0 <= k < |SearchTerm(query)| ==> !IsUpper(SearchTerm(query)[k])
    ensures SearchTerm("") == "" && SearchTerm("@") == ""
  {
    var l := ToLower(query);
    if '@' in l {
      var i := IndexOf(l, '@');
      forall k | 0 <= k < |SearchTerm(query)| ensures !IsUpper(SearchTerm(query)[k]) {
        if k < i {
          assert SearchTerm(query)[k] == l[k];
        } else {
          assert SearchTerm(query)[k] == l[k + 1];
        }
      }
    }
    assert ToLower("@") == "@";
  }

  /** The name test of `filteredUsers`. */
  predicate NameMatches(u: User, term: string)
  {
    Contains(ToLower(u.username), term) || Contains(ToLower(u.displayName), term)
  }

  /** `filteredUsers`: the users other than the current one whose
      username or display name includes the term. */
  function FilteredUsers(users: seq<User>, currentUserId: string, term: string): (r: seq<User>)
  {
    Filter(Filter(users, (u: User) => u.id != currentUserId), (u: User) => NameMatches(u, term))
  }

  /** A user is shown exactly when it is not the current user and its name
      matches; the shown users keep their order. */
  lemma FilteredUsersSpec(users: seq<User>, currentUserId: string, term: string)
    ensures var r := FilteredUsers(users, currentUserId, term);
            (forall u :: u in r <==> u in users && u.id != currentUserId && NameMatches(u, term)) &&
            (forall k :: 0 <= k < |r| ==> r[k].id != currentUserId) &&
            r == Filter(users, (u: User) => u.id != currentUserId && NameMatches(u, term)) &&
            Subsequence(r, users)
  {
    var keep := (u: User) => u.id != currentUserId && NameMatches(u, term);
    FilterFilter(users, (u: User) => u.id != currentUserId, (u: User) => NameMatches(u, term), keep);
    FilterIsSubsequence(users, keep);
  }

  /** An empty query, or a bare "@", shows every user but the current one. */
  lemma {:induction false} BlankQueryKeepsOthers(users: seq<User>, currentUserId: string, query: string)
    requires query == "" || query == "@"
    ensures FilteredUsers(users, currentUserId, SearchTerm(query)) ==
            Filter(users, (u: User) => u.id != currentUserId)
  {
    SearchTermSpec(query);
    var others := Filter(users, (u: User) => u.id != currentUserId);
    forall u | u in others ensures NameMatches(u, "") {
      ContainsEmpty(ToLower(u.username));
    }
    FilterKeepsAll(others, (u: User) => NameMatches(u, ""));
  }

  /** `toggleUserSelection(userId)`. */
  function ToggleSelection(selected: seq<string>, userId: string): (r: seq<string>)
  {
    if userId in selected then Filter(selected, (id: string) => id != userId)
    else selected + [userId]
  }

  /** Toggling adds an absent id at the end, or removes every copy of a
      present one keeping the others in order: membership is flipped for
      `userId` only, and a duplicate-free selection stays duplicate-free. */
  lemma ToggleSelectionSpec(selected: seq<string>, userId: string)
    ensures var r := ToggleSelection(selected, userId);
            (forall id :: id in r <==> (id in selected) != (id == userId)) &&
            (userId !in selected ==> r == selected + [userId]) &&
            (userId in selected ==> Subsequence(r, selected)) &&
            (userId in selected ==> forall id :: multiset(r)[id] ==
                                      if id != userId then multiset(selected)[id] else 0) &&
            (NoDuplicates(selected) ==> NoDuplicates(r))
  {
    var r := ToggleSelection(selected, userId);
    if userId in selected {
      FilterIsSubsequence(selected, (id: string) => id != userId);
      FilterCount(selected, (id: string) => id != userId);
      if NoDuplicates(selected) {
        FilterNoDuplicates(selected, (id: string) => id != userId);
      }
    }
  }

  lemma {:induction false} FilterNoDuplicates(s: seq<string>, p: string -> bool)
    requires NoDuplicates(s)
    ensures NoDuplicates(Filter(s, p))
    decreases |s|
  {
    if s != [] {
      assert NoDuplicates(s[1..]);
      FilterNoDuplicates(s[1..], p);
      assert s[0] !in s[1..];
    }
  }

  /** Toggling an absent id twice gives back the original selection. */
  lemma {:induction false} ToggleSelectionTwice(selected: seq<string>, userId: string)
    requires userId !in selected
    ensures ToggleSelection(ToggleSelection(selected, userId), userId) == selected
  {
    var p := (id: string) => id != userId;
    FilterAppend(selected, [userId], p);
    FilterKeepsAll(selected, p);
  }

  /** What `handleCreateGroup` passes on to `onCreateGroup`. */
  datatype GroupRequest = GroupRequest(name: string, participantIds: seq<string>)

  /** The guard of `handleCreateGroup`: a non-blank name and at least one
      selected user; the name is passed on trimmed. */
  function CreateGroupRequest(groupName: string, selected: seq<string>): (r: Option<GroupRequest>)
  {
    if Trim(groupName) != "" && |selected| > 0
    then Some(GroupRequest(Trim(groupName), selected))
    else None
  }

  lemma CreateGroupRequestSpec(groupName: string, selected: seq<string>)
    ensures var r := CreateGroupRequest(groupName, selected);
            (r.Some? <==> |selected| > 0 && exists k :: 0 <= k < |groupName| && !IsJsSpace(groupName[k])) &&
            (r.Some? ==> r.value.participantIds == selected && r.value.name == Trim(groupName) &&
                         r.value.name != "" && !IsJsSpace(r.value.name[0]) &&
                         !IsJsSpace(r.value.name[|r.value.name| - 1]))
  {
  }

  /** `handleCreateGroup` of the dialog, wired to the page: when the guard
      passes, the page prepends the group chat and the dialog closes; when it
      fails, nothing changes. */
  method SubmitGroup(m: Messenger, groupName: string, selected: seq<string>, now: nat)
    modifies m`chats, m`showSearch
    ensures CreateGroupRequest(groupName, selected).None? ==>
              m.chats == old(m.chats) && m.showSearch == old(m.showSearch)
    ensures CreateGroupRequest(groupName, selected).Some? ==>
              m.chats == [NewGroupChat(StampedId("chat-", now), Trim(groupName), m.currentUser.id, selected)] + old(m.chats) &&
              !m.showSearch
  {
    var request := CreateGroupRequest(groupName, selected);
    if request.Some? {
      m.CreateGroup(request.value.name, request.value.participantIds, now);
      m.CloseSearch();
    }
  }

  /** `formatLastSeen(date)`, given `diff = now - date` when there is a date. */
  datatype SeenLabel = NoLabel | Seen(text: string) | SeenOnDate

  function FormatLastSeen(diff: Option<int>): (r: SeenLabel)
  {
    match diff
    case None => NoLabel
    case Some(d) =>
      var minutes := d / 60000;
      var hours := d / 3600000;
      if minutes < 60 then Seen("был(а) " + IntToDecimal(minutes) + " мин назад")
      else if hours < 24 then Seen("был(а) " + IntToDecimal(hours) + " ч назад")
      else SeenOnDate
  }

  /** No date gives the empty label; under an hour (a future date included)
      the floored minutes; then whole hours 1..23; from a day on, the date. */
  lemma FormatLastSeenBuckets(diff: Option<int>)
    ensures diff.None? <==> FormatLastSeen(diff) == NoLabel
    ensures diff.Some? && diff.value < 3600000 ==>
              FormatLastSeen(diff) == Seen("был(а) " + IntToDecimal(diff.value / 60000) + " мин назад")
    ensures diff.Some? && 3600000 <= diff.value < 86400000 ==>
              1 <= diff.value / 3600000 < 24 &&
              FormatLastSeen(diff) == Seen("был(а) " + NatToDecimal(diff.value / 3600000) + " ч назад")
    ensures diff.Some? && 86400000 <= diff.value <==> FormatLastSeen(diff) == SeenOnDate
  {
  }
}
