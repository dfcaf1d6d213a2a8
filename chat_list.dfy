/** The sidebar chat list: a case-insensitive name filter followed by a sort
    (pinned chats first, then the most recent last message first), and the
    relative-time label shown beside each chat. */
module ChatList {
  import opened Wrappers
  import opened Lists
  import opened Text
  import opened IndexPage

  /** `a.lastMessage?.timestamp.getTime() || 0`. */
  function LastActivity(c: Chat): int
  {
    match c.lastMessage
    case None => 0
    case Some(m) => m.timestamp
  }

  /** The sort comparator: negative when `a` goes first. */
  function Compare(a: Chat, b: Chat): int
  {
    if a.isPinned && !b.isPinned then -1
    else if !a.isPinned && b.isPinned then 1
    else LastActivity(b) - LastActivity(a)
  }

  /** `a` may stand before `b` in the sorted list. */
  predicate InOrder(a: Chat, b: Chat)
  {
    Compare(a, b) <= 0
  }

  /** The comparator is a total preorder, so the sorted order is well defined
      up to ties. */
  lemma CompareIsTotalPreorder(a: Chat, b: Chat, c: Chat)
    ensures InOrder(a, a)
    ensures InOrder(a, b) || InOrder(b, a)
    ensures InOrder(a, b) && InOrder(b, c) ==> InOrder(a, c)
  {
  }

  ghost predicate Sorted(s: seq<Chat>)
  {
    forall i, j :: 0 <= i < j < |s| ==> InOrder(s[i], s[j])
  }

  /** Places `x` before the first chat it may precede. */
  function Insert(x: Chat, s: seq<Chat>): (r: seq<Chat>)
    ensures multiset(r) == multiset(s) + multiset{x}
  {
    if s == [] then [x]
    else if InOrder(x, s[0]) then [x] + s
    else
      assert s == [s[0]] + s[1..];
      [s[0]] + Insert(x, s[1..])
  }

  lemma {:induction false} InsertSorted(x: Chat, s: seq<Chat>)
    requires Sorted(s)
    ensures Sorted(Insert(x, s))
    decreases |s|
  {
    if s != [] && !InOrder(x, s[0]) {
      var t := Insert(x, s[1..]);
      InsertSorted(x, s[1..]);
      forall k | 0 <= k < |t| ensures InOrder(s[0], t[k]) {
        assert t[k] in multiset(t);
        if t[k] != x {
          assert t[k] in multiset(s[1..]);
          var m :| 0 <= m < |s[1..]| && s[1..][m] == t[k];
          assert s[m + 1] == t[k];
        }
      }
      var r := Insert(x, s);
      assert r == [s[0]] + t;
      forall i, j | 0 <= i < j < |r| ensures InOrder(r[i], r[j]) {
        if i == 0 {
          assert r[j] == t[j - 1];
        } else {
          assert r[i] == t[i - 1] && r[j] == t[j - 1];
        }
      }
    }
  }

  /** `Array.prototype.sort` with the comparator, as an insertion sort. */
  function Sort(s: seq<Chat>): (r: seq<Chat>)
    ensures Sorted(r)
    ensures multiset(r) == multiset(s)
  {
    if s == [] then []
    else
      assert s == [s[0]] + s[1..];
      InsertSorted(s[0], Sort(s[1..]));
      Insert(s[0], Sort(s[1..]))
  }

  /** The filter: the chat's lower-cased name includes the lower-cased query. */
  predicate Matches(c: Chat, query: string)
  {
    Contains(ToLower(c.name), ToLower(query))
  }

  /** `filteredChats`. */
  function FilteredChats(chats: seq<Chat>, query: string): (r: seq<Chat>)
  {
    Sort(Filter(chats, (c: Chat) => Matches(c, query)))
  }

  /** The shown list is a permutation of the matching chats (every copy of
      each) and never longer than the chat list. */
  lemma {:induction false} FilteredChatsContents(chats: seq<Chat>, query: string)
    ensures var r := FilteredChats(chats, query);
            multiset(r) == multiset(Filter(chats, (c: Chat) => Matches(c, query))) &&
            (forall c :: c in r <==> c in chats && Matches(c, query)) &&
            |r| <= |chats|
  {
    var kept := Filter(chats, (c: Chat) => Matches(c, query));
    var r := FilteredChats(chats, query);
    assert |r| == |multiset(r)| == |multiset(kept)| == |kept|;
    forall c ensures c in r <==> c in kept {
      assert c in r <==> c in multiset(r);
      assert c in kept <==> c in multiset(kept);
    }
  }

  /** An empty query shows every chat. */
  lemma {:induction false} EmptyQueryKeepsAll(chats: seq<Chat>)
    ensures multiset(FilteredChats(chats, "")) == multiset(chats)
  {
    forall c | c in chats ensures Matches(c, "") {
      ContainsEmpty(ToLower(c.name));
    }
    FilterKeepsAll(chats, (c: Chat) => Matches(c, ""));
  }

  /** Every pinned chat is shown above every unpinned one, and among chats
      with the same pin state the last activity never increases down the list. */
  lemma {:induction false} FilteredChatsOrder(chats: seq<Chat>, query: string)
    ensures var r := FilteredChats(chats, query);
            (forall i, j :: 0 <= i < |r| && 0 <= j < |r| && r[i].isPinned && !r[j].isPinned ==> i < j) &&
            (forall i, j :: 0 <= i < j < |r| && r[i].isPinned == r[j].isPinned ==>
               LastActivity(r[i]) >= LastActivity(r[j]))
  {
    var r := FilteredChats(chats, query);
    assert Sorted(r);
    forall i, j | 0 <= i < |r| && 0 <= j < |r| && r[i].isPinned && !r[j].isPinned
      ensures i < j
    {
      assert !InOrder(r[j], r[i]);
    }
  }

  /** The query's case does not matter: an upper-case query ("АЛИ") shows
      the same chats as its lower-case form ("али"). */
  lemma QueryCaseInsensitive(chats: seq<Chat>, query: string)
    ensures FilteredChats(chats, ToLower(query)) == FilteredChats(chats, query)
  {
    ToLowerIdempotent(query);
    FilterSameTest(chats, (c: Chat) => Matches(c, ToLower(query)), (c: Chat) => Matches(c, query));
  }

  /** The relative-time label of `formatTime`: the calendar date branch is
      `toLocaleDateString`, which this model does not render. */
  datatype TimeLabel = Relative(text: string) | CalendarDate

  /** `formatTime(date)`, given `diff = now - date` in milliseconds. Dafny's
      `/` by a positive divisor is `Math.floor` of the quotient. */
  function FormatTime(diff: int): (r: TimeLabel)
  {
    var minutes := diff / 60000;
    var hours := diff / 3600000;
    var days := diff / 86400000;
    if minutes < 1 then Relative("только что")
    else if minutes < 60 then Relative(IntToDecimal(minutes) + " мин")
    else if hours < 24 then Relative(IntToDecimal(hours) + " ч")
    else if days < 7 then Relative(IntToDecimal(days) + " дн")
    else CalendarDate
  }

  /** The buckets of `formatTime` by elapsed time, with the count each shows:
      under a minute "just now"; then whole minutes 1..59, whole hours 1..23,
      whole days 1..6; from seven days on, the calendar date. */
  lemma FormatTimeBuckets(diff: int)
    ensures diff < 60000 ==> FormatTime(diff) == Relative("только что")
    ensures 60000 <= diff < 3600000 ==>
              1 <= diff / 60000 < 60 &&
              FormatTime(diff) == Relative(NatToDecimal(diff / 60000) + " мин")
    ensures 3600000 <= diff < 86400000 ==>
              1 <= diff / 3600000 < 24 &&
              FormatTime(diff) == Relative(NatToDecimal(diff / 3600000) + " ч")
    ensures 86400000 <= diff < 604800000 ==>
              1 <= diff / 86400000 < 7 &&
              FormatTime(diff) == Relative(NatToDecimal(diff / 86400000) + " дн")
    ensures 604800000 <= diff <==> FormatTime(diff) == CalendarDate
  {
  }
}
