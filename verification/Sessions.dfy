/** Saved sessions: a table whose tokens move from plain text to protected text,
    and the plain map from endpoints to sessions that it stands for. */
module Sessions {
  import opened Common

  datatype Place = Place(host: string, port: int)

  datatype Session = Session(id: int, name: string, place: Place, token: string, tls: bool, caFile: string,
                             serverName: string, created: nat, lastConnected: nat)

  /** auth_token is plain, auth_token_protected is secret. */
  datatype Row = Row(name: string, place: Place, plain: string, secret: string, tls: bool, caFile: string,
                     serverName: string, created: nat, lastConnected: nat)

  type Table = map<int, Row>

  /** Protecting may fail and may differ from call to call, numbered by a nonce. */
  datatype Store = Store(protect: (string, nat) -> Option<string>, unprotect: string -> Option<string>)

  /** Unprotect inverts Protect, which never yields an empty text. */
  ghost predicate Faithful(store: Store) {
    forall token: string, nonce: nat :: store.protect(token, nonce).Some? ==>
      var secret := store.protect(token, nonce).value;
      secret != "" && store.unprotect(secret) == Some(token)
  }

  /** How the calls made for one row fare. */
  datatype Io = Io(nonce: nat, updateFails: bool)

  // -------------------------------------------------------------- logical sessions

  /** A session as a user knows it; a secret that cannot be restored has no token. */
  datatype Logical = Logical(name: string, token: Option<string>, tls: bool, caFile: string, serverName: string,
                             created: nat, lastConnected: nat)

  function Token(row: Row, store: Store): Option<string> {
    if row.secret != "" then store.unprotect(row.secret) else Some(row.plain)
  }

  function LogicalOf(row: Row, store: Store): Logical {
    Logical(row.name, Token(row, store), row.tls, row.caFile, row.serverName, row.created, row.lastConnected)
  }

  predicate Unique(table: Table) {
    forall i, j | i in table && j in table && table[i].place == table[j].place :: i == j
  }

  function View(table: Table, store: Store): map<Place, Logical>
    requires Unique(table)
  {
    map i | i in table :: table[i].place := LogicalOf(table[i], store)
  }

  function SessionOf(id: int, row: Row, token: string): Session {
    Session(id, row.name, row.place, token, row.tls, row.caFile, row.serverName, row.created, row.lastConnected)
  }

  // -------------------------------------------------------------- restoring a token

  /** The row and the token after restoreToken; no token means an error. */
  function Restored(row: Row, store: Store, io: Io): (Row, Option<string>) {
    if row.secret != "" then
      match store.unprotect(row.secret)
      case None => (row, None)
      case Some(token) =>
        if row.plain == "" then (row, Some(token))
        else if io.updateFails then (row, None)
        else (row.(plain := ""), Some(token))
    else if row.plain == "" then (row, Some(""))
    else
      match store.protect(row.plain, io.nonce)
      case None => (row, None)
      case Some(secret) => if io.updateFails then (row, None) else (row.(plain := "", secret := secret), Some(row.plain))
  }

  /** Restoring never changes the logical session; when it succeeds it returns the
      logical token and leaves no plain text. */
  lemma RestoringKeepsTheToken(row: Row, store: Store, io: Io)
    requires Faithful(store)
    ensures var (after, token) := Restored(row, store, io);
            && LogicalOf(after, store) == LogicalOf(row, store) && after.place == row.place
            && (token.Some? ==> token == Token(row, store) && after.plain == "")
            && (after.plain == row.plain || after.plain == "")
  {
    if row.secret == "" && row.plain != "" && store.protect(row.plain, io.nonce).Some? {
      assert store.unprotect(store.protect(row.plain, io.nonce).value) == Some(row.plain);
    }
  }

  /** When restoring succeeds: a protected token can be unprotected and a plain one
      protected, and the row can be updated if it still holds plain text. */
  lemma RestoringSucceedsExactly(row: Row, store: Store, io: Io)
    ensures Restored(row, store, io).1.Some? <==>
              && (row.secret != "" ==> store.unprotect(row.secret).Some?)
              && (row.secret == "" && row.plain != "" ==> store.protect(row.plain, io.nonce).Some?)
              && (row.plain != "" ==> !io.updateFails)
  {
  }

  /** A row's place shows that row's session. */
  lemma ViewAt(table: Table, store: Store, id: int)
    requires Unique(table) && id in table
    ensures table[id].place in View(table, store) && View(table, store)[table[id].place] == LogicalOf(table[id], store)
  {
  }

  lemma ViewWitness(table: Table, store: Store, p: Place) returns (i: int)
    requires Unique(table) && p in View(table, store)
    ensures i in table && table[i].place == p
  {
    hide LogicalOf;
    i :| i in table && table[i].place == p;
  }

  /** The view is the map that shows every row at its place and nothing else. */
  lemma ViewIs(table: Table, store: Store, v: map<Place, Logical>)
    requires Unique(table)
    requires forall i | i in table :: table[i].place in v && v[table[i].place] == LogicalOf(table[i], store)
    requires forall p | p in v :: exists i :: i in table && table[i].place == p
    ensures v == View(table, store)
  {
    hide LogicalOf;
  }

  /** Replacing a row by one with the same logical session keeps the view. */
  lemma ViewKept(table: Table, store: Store, id: int, row: Row)
    requires Unique(table) && id in table
    requires row.place == table[id].place && LogicalOf(row, store) == LogicalOf(table[id], store)
    ensures Unique(table[id := row]) && View(table[id := row], store) == View(table, store)
  {
    hide LogicalOf, View;
    var after, v := table[id := row], View(table, store);
    forall i | i in after
      ensures after[i].place in v && v[after[i].place] == LogicalOf(after[i], store)
    {
      ViewAt(table, store, i);
    }
    forall p | p in v
      ensures exists i :: i in after && after[i].place == p
    {
      var i := ViewWitness(table, store, p);
      assert i in after && after[i].place == p;
    }
    ViewIs(after, store, v);
  }

  /** Setting the row of an endpoint sets that endpoint in the view. */
  lemma ViewSet(table: Table, store: Store, id: int, row: Row)
    requires Unique(table)
    requires forall i | i in table && table[i].place == row.place :: i == id
    requires id in table ==> table[id].place == row.place
    ensures Unique(table[id := row])
    ensures View(table[id := row], store) == View(table, store)[row.place := LogicalOf(row, store)]
  {
    hide LogicalOf, View;
    var after, v := table[id := row], View(table, store)[row.place := LogicalOf(row, store)];
    forall i | i in after
      ensures after[i].place in v && v[after[i].place] == LogicalOf(after[i], store)
    {
      if i != id {
        ViewAt(table, store, i);
      }
    }
    forall p | p in v
      ensures exists i :: i in after && after[i].place == p
    {
      if p == row.place {
        assert after[id].place == p;
      } else {
        var i := ViewWitness(table, store, p);
        assert i in after && after[i].place == p;
      }
    }
    ViewIs(after, store, v);
  }

  lemma ViewRemoved(table: Table, store: Store, id: int)
    requires Unique(table) && id in table
    ensures Unique(table - {id}) && View(table - {id}, store) == View(table, store) - {table[id].place}
  {
    hide LogicalOf, View;
    var after, v := table - {id}, View(table, store) - {table[id].place};
    forall i | i in after
      ensures after[i].place in v && v[after[i].place] == LogicalOf(after[i], store)
    {
      ViewAt(table, store, i);
    }
    forall p | p in v
      ensures exists i :: i in after && after[i].place == p
    {
      var i := ViewWitness(table, store, p);
      assert i in after && after[i].place == p;
    }
    ViewIs(after, store, v);
  }

  /** The row was restored, keeps no plain text, and shows as this session. */
  predicate RowLoaded(before: Table, after: Table, store: Store, io: int -> Io, id: int, session: Session) {
    && id in before && id in after && after[id].plain == ""
    && Restored(before[id], store, io(id)).1.Some?
    && Token(before[id], store).Some?
    && session == SessionOf(id, before[id], Token(before[id], store).value)
  }

  predicate AllLoaded(before: Table, after: Table, store: Store, io: int -> Io, order: seq<int>, sessions: seq<Session>) {
    |sessions| == |order| && forall k | 0 <= k < |order| :: RowLoaded(before, after, store, io, order[k], sessions[k])
  }

  /** The first k rows of the order are loaded, and the others as they were. */
  predicate LoadedUpTo(before: Table, now: Table, store: Store, io: int -> Io, order: seq<int>, k: nat, sessions: seq<Session>)
    requires k <= |order|
  {
    && now.Keys == before.Keys && |sessions| == k
    && (forall i | i in now && i !in order[..k] :: now[i] == before[i])
    && (forall j | 0 <= j < k :: RowLoaded(before, now, store, io, order[j], sessions[j]))
  }

  lemma LoadedNone(table: Table, store: Store, io: int -> Io, order: seq<int>)
    ensures LoadedUpTo(table, table, store, io, order, 0, [])
  {
  }

  lemma NotYetLoaded(before: Table, now: Table, store: Store, io: int -> Io, order: seq<int>, k: nat, sessions: seq<Session>)
    requires k < |order| && LoadedUpTo(before, now, store, io, order, k, sessions)
    requires forall i :: i in order <==> i in before
    requires forall i, j | 0 <= i < j < |order| :: order[i] != order[j]
    ensures order[k] in now && order[k] in before && now[order[k]] == before[order[k]] && now.Keys == before.Keys
  {
    assert order[k] in order && order[k] !in order[..k];
    assert order[k] in before.Keys && order[k] in now.Keys;
  }

  /** Restoring the next row's token loads it and leaves the other rows alone. */
  lemma LoadsNext(before: Table, now: Table, store: Store, io: int -> Io, order: seq<int>, k: nat, sessions: seq<Session>)
    requires k < |order| && LoadedUpTo(before, now, store, io, order, k, sessions) && Faithful(store)
    requires order[k] in now && now[order[k]] == before[order[k]]
    requires forall i, j | 0 <= i < j < |order| :: order[i] != order[j]
    requires Restored(before[order[k]], store, io(order[k])).1.Some?
    ensures var id := order[k]; var (row, token) := Restored(before[id], store, io(id));
            LoadedUpTo(before, now[id := row], store, io, order, k + 1, sessions + [SessionOf(id, before[id], token.value)])
  {
    hide Restored, Faithful, SessionOf, Token;
    var id := order[k];
    var (row, token) := Restored(before[id], store, io(id));
    RestoringKeepsTheToken(before[id], store, io(id));
    assert order[..k + 1] == order[..k] + [id];
    var after, more := now[id := row], sessions + [SessionOf(id, before[id], token.value)];
    forall j | 0 <= j < k + 1
      ensures RowLoaded(before, after, store, io, order[j], more[j])
    {
      assert j < k ==> RowLoaded(before, now, store, io, order[j], sessions[j]);
    }
  }

  /** Once every row of the order is loaded, so is the whole table. */
  lemma LoadedAll(before: Table, now: Table, store: Store, io: int -> Io, order: seq<int>, sessions: seq<Session>)
    requires LoadedUpTo(before, now, store, io, order, |order|, sessions)
    requires forall i :: i in order <==> i in before
    ensures now.Keys == before.Keys && forall i | i in now :: now[i].plain == ""
    ensures AllLoaded(before, now, store, io, order, sessions) && AllRestorable(before, store, io)
  {
    hide SessionOf, Token;
    forall i | i in before
      ensures now[i].plain == "" && Restored(before[i], store, io(i)).1.Some?
    {
      var j :| 0 <= j < |order| && order[j] == i;
      assert RowLoaded(before, now, store, io, order[j], sessions[j]);
    }
  }

  predicate AllRestorable(table: Table, store: Store, io: int -> Io) {
    forall i | i in table :: Restored(table[i], store, io(i)).1.Some?
  }

  /** What saving a session makes of the endpoint's entry, if it had one. */
  function Saved(was: Option<Logical>, s: Session, now: nat): Logical {
    var created := if was.Some? then was.value.created else if s.created == 0 then now else s.created;
    var last := if s.lastConnected == 0 then now else s.lastConnected;
    Logical(s.name, Some(s.token), s.tls, s.caFile, s.serverName, created, last)
  }

  /** The view shows an endpoint as its row says, or not at all without a row. */
  lemma ViewOfPlace(table: Table, store: Store, place: Place, id: Option<int>)
    requires Unique(table)
    requires if id.Some? then id.value in table && table[id.value].place == place
             else forall i | i in table :: table[i].place != place
    ensures Get(View(table, store), place)
            == if id.Some? then Some(LogicalOf(table[id.value], store)) else None
  {
    if id.Some? {
      ViewAt(table, store, id.value);
    } else if place in View(table, store) {
      var i := ViewWitness(table, store, place);
      assert false;
    }
    hide View, LogicalOf;
  }

  /** The answer of a lookup: no row, a row that cannot be restored, or a session. */
  datatype Lookup = Missing | Failed | Found(session: Session)

  lemma LoadedShows(row: Row, store: Store, s: Session)
    requires Token(row, store).Some? && s == SessionOf(s.id, row, Token(row, store).value)
    ensures s.place == row.place
    ensures Logical(s.name, Some(s.token), s.tls, s.caFile, s.serverName, s.created, s.lastConnected) == LogicalOf(row, store)
  {
  }

  class SessionManager {
    var table: Table
    var lastId: int
    const store: Store

    ghost predicate Valid()
      reads this
    {
      Faithful(store) && Unique(table) && forall i | i in table :: i <= lastId
    }

    ghost function Sessions(): map<Place, Logical>
      reads this
      requires Valid()
    {
      View(table, store)
    }

    constructor (table: Table, lastId: int, store: Store)
      requires Faithful(store) && Unique(table) && forall i | i in table :: i <= lastId
      ensures Valid() && this.table == table && this.store == store
    {
      this.table, this.lastId, this.store := table, lastId, store;
    }

    method FindPlace(place: Place) returns (found: Option<int>)
      requires Valid()
      ensures found.Some? ==> found.value in table && table[found.value].place == place
      ensures found.None? <==> forall i | i in table :: table[i].place != place
    {
      if i :| i in table && table[i].place == place {
        return Some(i);
      }
      return None;
    }

    /** Inserts or replaces the session of an endpoint: in the view, one entry is set. */
    method Save(s: Session, now: nat, nonce: nat, writeFails: bool) returns (ok: bool)
      requires Valid()
      modifies this
      ensures Valid()
      ensures ok <==> !writeFails && (s.token == "" || store.protect(s.token, nonce).Some?)
      ensures !ok ==> table == old(table)
      ensures ok ==>
                Sessions() == old(Sessions())[s.place := Saved(Get(old(Sessions()), s.place), s, now)]
      ensures ok ==> exists i :: i in table && table[i].place == s.place && table[i].plain == ""
    {
      hide View;
      var created := if s.created == 0 then now else s.created;
      var last := if s.lastConnected == 0 then now else s.lastConnected;
      var secret := "";
      if s.token != "" {
        var protected := store.protect(s.token, nonce);
        if protected.None? {
          return false;
        }
        secret := protected.value;
      }
      if writeFails {
        return false;
      }
      ghost var before := table;
      var existing := FindPlace(s.place);
      ViewOfPlace(table, store, s.place, existing);
      var id := lastId + 1;
      if existing.Some? {
        id := existing.value;
        created := table[id].created;
      } else {
        lastId := id;
      }
      table := table[id := Row(s.name, s.place, "", secret, s.tls, s.caFile, s.serverName, created, last)];
      ViewSet(before, store, id, table[id]);
      return true;
    }

    /** restoreToken for the row with this id. */
    method RestoreToken(id: int, plain: string, secret: string, io: Io) returns (token: Option<string>)
      requires Valid() && id in table && table[id].plain == plain && table[id].secret == secret
      modifies this`table
      ensures Valid() && Sessions() == old(Sessions()) && lastId == old(lastId)
      ensures table == old(table)[id := Restored(old(table)[id], store, io).0]
      ensures token == Restored(old(table)[id], store, io).1
    {
      RestoringKeepsTheToken(table[id], store, io);
      ViewKept(table, store, id, Restored(table[id], store, io).0);
      assert table == table[id := table[id]];
      if secret != "" {
        token := store.unprotect(secret);
        if token.None? {
          return;
        }
        if plain != "" {
          if io.updateFails {
            return None;
          }
          table := table[id := table[id].(plain := "")];
        }
        return;
      }
      if plain == "" {
        return Some("");
      }
      var protected := store.protect(plain, io.nonce);
      if protected.None? {
        return None;
      }
      if io.updateFails {
        return None;
      }
      table := table[id := table[id].(plain := "", secret := protected.value)];
      return Some(plain);
    }

    /** Loads the session with an id, if there is one and its token can be restored. */
    method LoadById(id: int, io: Io) returns (loaded: Option<Session>)
      requires Valid()
      modifies this`table
      ensures Valid() && Sessions() == old(Sessions()) && lastId == old(lastId)
      ensures loaded.Some? <==> id in old(table) && Restored(old(table)[id], store, io).1.Some?
      ensures loaded.Some? ==>
                && Token(old(table)[id], store).Some?
                && loaded == Some(SessionOf(id, old(table)[id], Token(old(table)[id], store).value))
                && loaded.value.id == id && loaded.value.place == old(table)[id].place
                && id in table && table[id].plain == "" && table[id].place == old(table)[id].place
    {
      if id !in table {
        return None;
      }
      var row := table[id];
      RestoringKeepsTheToken(row, store, io);
      var token := RestoreToken(id, row.plain, row.secret, io);
      if token.None? {
        return None;
      }
      return Some(SessionOf(id, row, token.value));
    }

    /** Loads the session of an endpoint: what the view says about it. A row whose
        token cannot be restored is an error, and no row at all is not. */
    method LoadByHost(place: Place, io: Io) returns (found: Lookup)
      requires Valid()
      modifies this`table
      ensures Valid() && Sessions() == old(Sessions()) && lastId == old(lastId)
      ensures found.Missing? <==> place !in Sessions()
      ensures found.Failed? <==>
                exists i :: i in old(table) && old(table)[i].place == place && Restored(old(table)[i], store, io).1.None?
      ensures found.Found? ==>
                var s := found.session;
                && s.place == place && place in Sessions() && s.id in table && table[s.id].place == place
                && Logical(s.name, Some(s.token), s.tls, s.caFile, s.serverName, s.created, s.lastConnected) == Sessions()[place]
    {
      hide View, Restored, LogicalOf;
      ghost var before := table;
      var id := FindPlace(place);
      ViewOfPlace(table, store, place, id);
      if id.None? {
        return Missing;
      }
      var loaded := LoadById(id.value, io);
      if loaded.None? {
        return Failed;
      }
      LoadedShows(before[id.value], store, loaded.value);
      return Found(loaded.value);
    }

    /** Loads every session in the given order of the rows. A failure midway leaves
        the logical sessions as they were; success leaves no plain text at all. */
    method LoadAll(order: seq<int>, io: int -> Io) returns (loaded: Option<seq<Session>>)
      requires Valid()
      requires forall i :: i in order <==> i in table
      requires forall j, k | 0 <= j < k < |order| :: order[j] != order[k]
      modifies this`table
      ensures Valid() && Sessions() == old(Sessions()) && table.Keys == old(table).Keys
      ensures loaded.Some? ==>
                && (forall i | i in table :: table[i].plain == "")
                && AllLoaded(old(table), table, store, io, order, loaded.value)
      ensures loaded.Some? <==> AllRestorable(old(table), store, io)
    {
      hide Restored, Token, View, SessionOf, Faithful, RowLoaded, LoadedUpTo, AllLoaded;
      ghost var before := table;
      assert forall k | 0 <= k < |order| :: order[k] in order;
      var rows := SelectAll(order);
      var sessions: seq<Session> := [];
      LoadedNone(before, store, io, order);
      for k := 0 to |order|
        invariant Valid() && Sessions() == old(Sessions()) && lastId == old(lastId)
        invariant LoadedUpTo(before, table, store, io, order, k, sessions)
      {
        var id, row := order[k], rows[k];
        NotYetLoaded(before, table, store, io, order, k, sessions);
        ghost var now := table;
        var token := RestoreToken(id, row.plain, row.secret, io(id));
        if token.None? {
          assert !AllRestorable(before, store, io);
          return None;
        }
        LoadsNext(before, now, store, io, order, k, sessions);
        sessions := sessions + [SessionOf(id, row, token.value)];
      }
      LoadedAll(before, table, store, io, order, sessions);
      return Some(sessions);
    }

    /** The query's rows, read before any of them is changed. */
    method SelectAll(order: seq<int>) returns (rows: seq<Row>)
      requires forall k | 0 <= k < |order| :: order[k] in table
      ensures |rows| == |order| && forall k | 0 <= k < |order| :: rows[k] == table[order[k]]
    {
      rows := [];
      for k := 0 to |order|
        invariant |rows| == k && forall j | 0 <= j < k :: rows[j] == table[order[j]]
      {
        rows := rows + [table[order[k]]];
      }
    }

    method Delete(id: int) returns (ok: bool)
      requires Valid()
      modifies this`table
      ensures Valid() && ok == (id in old(table))
      ensures Sessions() == if ok then old(Sessions()) - {old(table)[id].place} else old(Sessions())
    {
      if id !in table {
        return false;
      }
      ViewRemoved(table, store, id);
      table := table - {id};
      return true;
    }
  }

  /** A saved session is loaded back with its token and connection options, and a
      failed save leaves what was there. */
  method SaveThenLoad(m: SessionManager, s: Session, now: nat, nonce: nat, io: Io) returns (found: Lookup)
    requires m.Valid()
    modifies m
    ensures m.Valid()
    ensures found.Found? <==> s.token == "" || m.store.protect(s.token, nonce).Some?
    ensures found.Found? ==>
              && found.session.place == s.place && found.session.name == s.name
              && found.session.token == s.token && found.session.tls == s.tls
              && found.session.caFile == s.caFile && found.session.serverName == s.serverName
              && found.session.created == (if s.place in old(m.Sessions()) then old(m.Sessions())[s.place].created
                                           else if s.created == 0 then now else s.created)
              && found.session.lastConnected == (if s.lastConnected == 0 then now else s.lastConnected)
    ensures !found.Found? ==> m.table == old(m.table)
  {
    var ok := m.Save(s, now, nonce, false);
    if !ok {
      return Failed;
    }
    var saved :| saved in m.table && m.table[saved].place == s.place && m.table[saved].plain == "";
    forall i | i in m.table && m.table[i].place == s.place
      ensures Restored(m.table[i], m.store, io).1.Some?
    {
      assert i == saved;
      SavedIsRestorable(m.table, m.store, i, io);
    }
    hide View, Restored;
    found := m.LoadByHost(s.place, io);
  }

  lemma SavedIsRestorable(table: Table, store: Store, id: int, io: Io)
    requires Unique(table) && id in table && table[id].plain == ""
    requires View(table, store)[table[id].place].token.Some?
    ensures Restored(table[id], store, io).1.Some?
  {
    ViewAt(table, store, id);
  }
}
