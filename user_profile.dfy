/** `UserProfileStore`: the user's profile, held as one JSON object in
    `data/user_profile.json`: a food history, favourites, chat sessions with
    their messages, and remembered facts that are also drawn into the
    memory graph. The clock and the session ids (`uuid4`) are parameters. */
module UserProfile {
  import opened Wrappers
  import opened Text
  import Seqs
  import StableSort
  import GraphDb

  /** One `history` entry; `nutrients` as the text of its values. */
  datatype Entry = Entry(date: string, timestamp: string, food: string, nutrients: map<string, string>)

  datatype Message = Message(role: string, content: string, timestamp: string)

  datatype Session = Session(id: string, title: string, timestamp: string, messages: seq<Message>)

  /** A JSON object of sessions: its keys in insertion order, as Python
      keeps them. */
  type Sessions = seq<(string, Session)>

  /** The profile object. `sessions` and `facts` are absent until first used. */
  datatype Profile = Profile(
    name: string,
    favorites: seq<string>,
    history: seq<Entry>,
    preferences: seq<string>,
    sessions: Option<Sessions>,
    facts: Option<seq<string>>)

  /** The profile file: missing, not loadable, or a profile. */
  datatype ProfileFile = Missing | Unreadable | Written(profile: Profile)

  /** The profile a new user starts with, also used when the file cannot be read. */
  function DefaultProfile(): Profile {
    Profile("User", [], [], [], None, None)
  }

  // ---------------------------------------------------------------------
  // Session objects as ordered maps

  function SessionKey(kv: (string, Session)): string { kv.0 }

  /** A JSON object has each key once. */
  ghost predicate WellFormed(p: Profile) {
    p.sessions.Some? ==> Seqs.DistinctKeys(SessionKey, p.sessions.value)
  }

  /** `sessions.get(key)` */
  function Lookup(d: Sessions, key: string): (r: Option<Session>)
    ensures r.Some? <==> exists i :: 0 <= i < |d| && d[i].0 == key
    ensures r.Some? ==> exists i :: 0 <= i < |d| && d[i] == (key, r.value)
  {
    if |d| == 0 then None
    else if d[0].0 == key then Some(d[0].1)
    else
      var r := Lookup(d[1..], key);
      assert r.Some? ==> exists i :: 0 <= i < |d[1..]| && d[1..][i] == (key, r.value);
      r
  }

  /** `sessions[key] = value`: an existing key keeps its place, a new key
      goes last. */
  function Put(d: Sessions, key: string, value: Session): (r: Sessions)
    ensures |r| == |d| || r == d + [(key, value)]
  {
    if |d| == 0 then [(key, value)]
    else if d[0].0 == key then [(key, value)] + d[1..]
    else [d[0]] + Put(d[1..], key, value)
  }

  /** `sessions[key] = value` stores `value` under `key`. */
  lemma {:induction false} PutFinds(d: Sessions, key: string, value: Session)
    ensures Lookup(Put(d, key, value), key) == Some(value)
  {
    if |d| > 0 && d[0].0 != key {
      PutFinds(d[1..], key, value);
    }
  }

  /** ... and leaves every other key as it was. */
  lemma {:induction false} PutKeeps(d: Sessions, key: string, value: Session, other: string)
    requires other != key
    ensures Lookup(Put(d, key, value), other) == Lookup(d, other)
  {
    if |d| > 0 && d[0].0 != key {
      PutKeeps(d[1..], key, value, other);
    }
  }

  /** An existing key keeps its place and the keys stay as they were. */
  lemma {:induction false} PutInPlace(d: Sessions, key: string, value: Session)
    requires Lookup(d, key).Some?
    ensures |Put(d, key, value)| == |d|
    ensures forall i :: 0 <= i < |d| ==> Put(d, key, value)[i].0 == d[i].0
  {
    if d[0].0 != key {
      PutInPlace(d[1..], key, value);
    }
  }

  /** A new key goes last. */
  lemma {:induction false} PutAppends(d: Sessions, key: string, value: Session)
    requires Lookup(d, key).None?
    ensures Put(d, key, value) == d + [(key, value)]
  {
    if |d| > 0 {
      PutAppends(d[1..], key, value);
      assert d == [d[0]] + d[1..];
    }
  }

  /** After `sessions[key] = value`, `key` holds `value` and every other
      key what it held before; a new key goes last and the keys stay
      distinct. */
  lemma PutLookup(d: Sessions, key: string, value: Session, other: string)
    requires Seqs.DistinctKeys(SessionKey, d)
    ensures Lookup(Put(d, key, value), key) == Some(value)
    ensures other != key ==> Lookup(Put(d, key, value), other) == Lookup(d, other)
    ensures Lookup(d, key).None? ==> Put(d, key, value) == d + [(key, value)]
    ensures Seqs.DistinctKeys(SessionKey, Put(d, key, value))
  {
    PutFinds(d, key, value);
    if other != key {
      PutKeeps(d, key, value, other);
    }
    var r := Put(d, key, value);
    if Lookup(d, key).Some? {
      PutInPlace(d, key, value);
      forall i, j | 0 <= i < j < |r| ensures SessionKey(r[i]) != SessionKey(r[j]) {
        assert r[i].0 == d[i].0 && r[j].0 == d[j].0;
      }
    } else {
      PutAppends(d, key, value);
      forall i, j | 0 <= i < j < |r| ensures SessionKey(r[i]) != SessionKey(r[j]) {
        if j == |d| {
          assert r[i] == d[i];
        } else {
          assert r[i] == d[i] && r[j] == d[j];
        }
      }
    }
  }

  // ---------------------------------------------------------------------
  // History

  /** `get_today_log`: the entries dated `today`. */
  function EntriesOn(history: seq<Entry>, today: string): seq<Entry> {
    Seqs.Filter((e: Entry) => e.date == today, history)
  }

  /** `get_today_log` keeps exactly today's entries. */
  lemma EntriesOnExact(history: seq<Entry>, today: string)
    ensures forall e :: e in EntriesOn(history, today) <==> e in history && e.date == today
  {
    forall e ensures e in EntriesOn(history, today) <==> e in history && e.date == today {
      Seqs.FilterHas((e: Entry) => e.date == today, history, e);
    }
  }

  /** Today's log keeps the history's order: the log of a history in two
      parts is the log of the first part followed by that of the second,
      and a lone entry is kept exactly when it is dated today. */
  lemma {:induction false} EntriesOnInOrder(first: seq<Entry>, second: seq<Entry>, today: string)
    ensures EntriesOn(first + second, today) == EntriesOn(first, today) + EntriesOn(second, today)
    ensures EntriesOn([], today) == []
    ensures forall e :: EntriesOn([e], today) == (if e.date == today then [e] else [])
    decreases |second|
  {
    if |second| == 0 {
      assert first + second == first;
    } else {
      var init := second[..|second| - 1];
      assert (first + second)[..|first + second| - 1] == first + init;
      EntriesOnInOrder(first, init, today);
    }
    forall e ensures EntriesOn([e], today) == (if e.date == today then [e] else []) {
      assert [e][..0] == [];
    }
  }

  /** Logging a food today shows it last in today's log. */
  lemma LoggedIsLastToday(history: seq<Entry>, e: Entry)
    ensures EntriesOn(history + [e], e.date) == EntriesOn(history, e.date) + [e]
  {
    assert (history + [e])[..|history|] == history;
  }

  /** The start index of Python's `s[start:]` for a possibly negative `start`. */
  function SliceStart(start: int, len: nat): (i: nat)
    ensures i <= len
  {
    if start < 0 then (if len + start < 0 then 0 else len + start)
    else if start > len then len
    else start
  }

  /** `history[-limit:]` */
  function RecentEntries(history: seq<Entry>, limit: int): seq<Entry> {
    history[SliceStart(-limit, |history|)..]
  }

  /** A positive limit keeps the last `min(limit, len)` entries; a limit of
      0 is `history[0:]`, the whole history; a negative limit drops the
      first `-limit` entries. */
  lemma RecentEntriesSpec(history: seq<Entry>, limit: int)
    ensures limit >= 1 ==>
      var n := if limit < |history| then limit else |history|;
      RecentEntries(history, limit) == history[|history| - n..] && |RecentEntries(history, limit)| == n
    ensures limit == 0 ==> RecentEntries(history, limit) == history
    ensures limit < 0 ==> RecentEntries(history, limit) == if -limit >= |history| then [] else history[-limit..]
  {
  }

  // ---------------------------------------------------------------------
  // Favourites and facts

  /** `if x not in items: items.append(x)` */
  function AddOnce(items: seq<string>, x: string): (r: seq<string>)
    ensures x in r
    ensures forall y :: y in r <==> y in items || y == x
    ensures x in items ==> r == items
  {
    if x in items then items else items + [x]
  }

  /** Adding twice is adding once, and a list without repeats keeps none. */
  lemma AddOnceIdempotent(items: seq<string>, x: string)
    ensures AddOnce(AddOnce(items, x), x) == AddOnce(items, x)
    ensures Seqs.DistinctKeys((y: string) => y, items) ==> Seqs.DistinctKeys((y: string) => y, AddOnce(items, x))
  {
  }

  /** The graph label of a fact: "I am " and then "i am " removed, stripped
      and title-cased. */
  function FactLabel(fact: string): string {
    Title(Strip(Replace(Replace(fact, "I am ", ""), "i am ", "")))
  }

  /** "I am <w>" is labelled with `w` title-cased, when `w` holds neither
      phrase itself. */
  lemma FactLabelOfIAm(w: string)
    requires !IsSubstring("I am ", w) && !IsSubstring("i am ", w)
    ensures FactLabel("I am " + w) == Title(Strip(w))
  {
    var s := "I am " + w;
    assert s[..5] == "I am ";
    assert s[5..] == w;
    ReplaceAbsent(w, "I am ", "");
    assert Replace(s, "I am ", "") == w;
    ReplaceAbsent(w, "i am ", "");
  }

  // ---------------------------------------------------------------------
  // The session listing

  /** `key=lambda x: x["timestamp"]`, `reverse=True` */
  predicate NewerOrSame(a: Session, b: Session) {
    StrLe(b.timestamp, a.timestamp)
  }

  lemma NewerOrSameIsTotalPreorder()
    ensures StableSort.TotalPreorder(NewerOrSame)
  {
    forall a: Session, b: Session
      ensures NewerOrSame(a, b) || NewerOrSame(b, a)
    {
      StrLeTotal(a.timestamp, b.timestamp);
    }
    forall a: Session, b: Session, c: Session | NewerOrSame(a, b) && NewerOrSame(b, c)
      ensures NewerOrSame(a, c)
    {
      StrLeTransitive(c.timestamp, b.timestamp, a.timestamp);
    }
  }

  function SessionValue(kv: (string, Session)): Session { kv.1 }

  /** `get_all_sessions` */
  function AllSessions(p: Profile): seq<Session> {
    match p.sessions
    case None => []
    case Some(d) => StableSort.Sort(Seqs.Map(SessionValue, d), NewerOrSame)
  }

  /** Every session once, newest first, sessions with equal timestamps in
      the order they were created. */
  lemma AllSessionsOrdered(p: Profile, z: Session)
    ensures p.sessions.None? ==> AllSessions(p) == []
    ensures p.sessions.Some? ==>
      var values := Seqs.Map(SessionValue, p.sessions.value);
      && multiset(AllSessions(p)) == multiset(values)
      && StableSort.SortedDesc(AllSessions(p), NewerOrSame)
      && StableSort.TiedWith(AllSessions(p), z, NewerOrSame) == StableSort.TiedWith(values, z, NewerOrSame)
  {
    if p.sessions.Some? {
      var values := Seqs.Map(SessionValue, p.sessions.value);
      NewerOrSameIsTotalPreorder();
      StableSort.SortSorted(values, NewerOrSame);
      StableSort.SortStable(values, z, NewerOrSame);
    }
  }

  /** `get_session_messages` */
  function SessionMessages(p: Profile, id: string): seq<Message> {
    if p.sessions.Some? && Lookup(p.sessions.value, id).Some? then Lookup(p.sessions.value, id).value.messages
    else []
  }

  /** An id with no session has no messages; a message added to a session
      becomes its last message. */
  lemma SessionMessagesSpec(p: Profile, id: string, m: Message)
    requires WellFormed(p)
    ensures p.sessions.None? || Lookup(p.sessions.value, id).None? ==> SessionMessages(p, id) == []
    ensures p.sessions.Some? && Lookup(p.sessions.value, id).Some? ==>
      var s := Lookup(p.sessions.value, id).value;
      SessionMessages(p.(sessions := Some(Put(p.sessions.value, id, s.(messages := s.messages + [m])))), id)
        == SessionMessages(p, id) + [m]
  {
    if p.sessions.Some? && Lookup(p.sessions.value, id).Some? {
      var s := Lookup(p.sessions.value, id).value;
      PutLookup(p.sessions.value, id, s.(messages := s.messages + [m]), id);
    }
  }

  // ---------------------------------------------------------------------
  // The store

  class UserProfileStore {
    var profile: Profile
    /** What `data/user_profile.json` holds. */
    var file: ProfileFile

    ghost predicate Valid()
      reads this
    {
      WellFormed(profile)
    }

    /** Loads the profile, or starts from the default one when the file is
        missing or cannot be read. */
    constructor (file: ProfileFile)
      requires file.Written? ==> WellFormed(file.profile)
      ensures Valid() && this.file == file
      ensures profile == if file.Written? then file.profile else DefaultProfile()
    {
      this.file := file;
      profile := if file.Written? then file.profile else DefaultProfile();
    }

    /** `_save_profile` */
    method Save()
      modifies this
      ensures profile == old(profile) && file == Written(profile)
    {
      file := Written(profile);
    }

    /** Appends one entry dated `today` and stamped `now`, and saves. */
    method LogFood(food: string, nutrients: map<string, string>, today: string, now: string)
      modifies this
      requires Valid()
      ensures Valid() && file == Written(profile)
      ensures profile == old(profile).(history := old(profile).history + [Entry(today, now, food, nutrients)])
    {
      var entry := Entry(today, now, food, nutrients);
      profile := profile.(history := profile.history + [entry]);
      Save();
    }

    /** Adds a favourite that is not there yet, and then saves. */
    method AddFavorite(food: string)
      modifies this
      requires Valid()
      ensures Valid()
      ensures profile == old(profile).(favorites := AddOnce(old(profile).favorites, food))
      ensures file == if food in old(profile).favorites then old(file) else Written(profile)
    {
      if food !in profile.favorites {
        profile := profile.(favorites := profile.favorites + [food]);
        Save();
      }
    }

    /** `get_favorites`: the favourites in the order they were added. */
    function GetFavorites(): (r: seq<string>)
      reads this
      ensures r == profile.favorites
    {
      profile.favorites
    }

    /** `get_today_log`, given today's date. */
    function GetTodayLog(today: string): (r: seq<Entry>)
      reads this
      ensures forall e :: e in r <==> e in profile.history && e.date == today
      ensures forall e :: e in r ==> e.date == today
    {
      EntriesOnExact(profile.history, today);
      EntriesOn(profile.history, today)
    }

    /** `get_recent_history` (the default limit is 5). */
    function GetRecentHistory(limit: int): (r: seq<Entry>)
      reads this
      ensures var h := profile.history;
        limit >= 1 ==> var n := if limit < |h| then limit else |h|;
          r == h[|h| - n..] && |r| == n
      ensures limit == 0 ==> r == profile.history
      ensures limit < 0 ==> r == if -limit >= |profile.history| then [] else profile.history[-limit..]
    {
      RecentEntriesSpec(profile.history, limit);
      RecentEntries(profile.history, limit)
    }

    /** Stores a new session with no messages under `sessionId` (a fresh
        `uuid4`), stamped `now`, saves and returns the id. */
    method CreateSession(title: string, sessionId: string, now: string) returns (id: string)
      modifies this
      requires Valid()
      ensures Valid() && file == Written(profile) && id == sessionId
      ensures profile == old(profile).(sessions := Some(Put(old(profile).sessions.GetOr([]), sessionId, Session(sessionId, title, now, []))))
    {
      var session := Session(sessionId, title, now, []);
      var sessions := profile.sessions.GetOr([]);
      PutLookup(sessions, sessionId, session, sessionId);
      profile := profile.(sessions := Some(Put(sessions, sessionId, session)));
      Save();
      id := sessionId;
    }

    /** Appends a message stamped `sentAt` to session `sessionId`. An unknown
        id first creates a "Restored Session" under the fresh id `freshId`
        stamped `restoredAt`; the append then fails (`ok` is false) unless
        that fresh id happens to be `sessionId`, and the restored session
        stays. */
    method AddMessage(sessionId: string, role: string, content: string, freshId: string, restoredAt: string, sentAt: string)
      returns (ok: bool)
      modifies this
      requires Valid()
      ensures Valid()
      ensures var d := old(profile).sessions.GetOr([]);
        var restored := if Lookup(d, sessionId).Some? then d else Put(d, freshId, Session(freshId, "Restored Session", restoredAt, []));
        && ok == Lookup(restored, sessionId).Some?
        && (ok ==>
          var s := Lookup(restored, sessionId).value;
          && profile == old(profile).(sessions := Some(Put(restored, sessionId, s.(messages := s.messages + [Message(role, content, sentAt)]))))
          && file == Written(profile))
        && (!ok ==> profile == old(profile).(sessions := Some(restored)) && file == Written(profile))
    {
      if profile.sessions.None? {
        profile := profile.(sessions := Some([]));
      }
      if Lookup(profile.sessions.value, sessionId).None? {
        var _ := CreateSession("Restored Session", freshId, restoredAt);
      }
      var msg := Message(role, content, sentAt);
      var sessions := profile.sessions.value;
      var found := Lookup(sessions, sessionId);
      if found.None? {
        return false;
      }
      var session := found.value;
      PutLookup(sessions, sessionId, session.(messages := session.messages + [msg]), sessionId);
      profile := profile.(sessions := Some(Put(sessions, sessionId, session.(messages := session.messages + [msg]))));
      Save();
      ok := true;
    }

    /** `get_all_sessions`: every session once, newest first. */
    function GetAllSessions(): (r: seq<Session>)
      reads this
      ensures profile.sessions.None? ==> r == []
      ensures profile.sessions.Some? ==>
        && multiset(r) == multiset(Seqs.Map(SessionValue, profile.sessions.value))
        && StableSort.SortedDesc(r, NewerOrSame)
    {
      AllSessionsOrdered(profile, Session("", "", "", []));
      AllSessions(profile)
    }

    /** `get_session_messages`: a known session's messages, else none. */
    function GetSessionMessages(sessionId: string): (r: seq<Message>)
      reads this
      ensures profile.sessions.None? || Lookup(profile.sessions.value, sessionId).None? ==> r == []
      ensures profile.sessions.Some? && Lookup(profile.sessions.value, sessionId).Some? ==>
        r == Lookup(profile.sessions.value, sessionId).value.messages
    {
      SessionMessages(profile, sessionId)
    }

    /** Remembers a fact once, then draws it into user 1's memory graph:
        a "User" node, a node labelled by `FactLabel`, and an "IS" edge
        between them. */
    method SaveFact(fact: string, graph: GraphDb.GraphService)
      modifies this, graph
      requires Valid() && graph.Valid()
      ensures Valid() && graph.Valid()
      ensures profile == old(profile).(facts := Some(AddOnce(old(profile).facts.GetOr([]), fact)))
      ensures file == if fact in old(profile).facts.GetOr([]) then old(file) else Written(profile)
      ensures var user := GraphDb.AddedNode(old(graph.nodes), 1, "User", "USER");
        var withUser := GraphDb.NodesAfterAdd(old(graph.nodes), 1, "User", "USER");
        var factNode := GraphDb.AddedNode(withUser, 1, FactLabel(fact), "FACT");
        && graph.nodes == GraphDb.NodesAfterAdd(withUser, 1, FactLabel(fact), "FACT")
        && graph.edges == GraphDb.EdgesAfterAdd(old(graph.edges), user.id, factNode.id, "IS")
    {
      var facts := profile.facts.GetOr([]);
      if profile.facts.None? {
        profile := profile.(facts := Some([]));
      }
      if fact !in facts {
        profile := profile.(facts := Some(facts + [fact]));
        Save();
      }
      var userNode := graph.AddNode(1, "User", "USER");
      var factName := FactLabel(fact);
      var factNode := graph.AddNode(1, factName, "FACT");
      var _ := graph.AddEdge(userNode.id, factNode.id, "IS");
    }

    /** `get_facts`: the remembered facts, or none before the first. */
    function GetFacts(): (r: seq<string>)
      reads this
      ensures profile.facts.None? ==> r == []
      ensures profile.facts.Some? ==> r == profile.facts.value
    {
      profile.facts.GetOr([])
    }
  }
}
