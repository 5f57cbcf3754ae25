/**
 The reminders table of db/reminder-db.js: an SQLite table
 `reminders(id INTEGER PRIMARY KEY AUTOINCREMENT, chat_id, task, remind_at)`
 with four statements over it (INSERT, SELECT *, SELECT ... WHERE chat_id = ?,
 DELETE ... WHERE id = ?). AUTOINCREMENT hands out the next id after the
 largest one ever issued, so an id is never reused, even after its row is gone.
 */
module ReminderDb {

  /** One row of the table. */
  datatype Reminder = Reminder(id: int, chatId: int, task: string, remindAt: int)

  /** Every row is stored under its own id. */
  ghost predicate WellKeyed(rows: map<int, Reminder>)
  {
    forall id :: id in rows ==> rows[id].id == id
  }

  /** Ids strictly increase along the sequence: the table's rowid order. */
  ghost predicate Ascending(rs: seq<Reminder>)
  {
    forall i, j :: 0 <= i < j < |rs| ==> rs[i].id < rs[j].id
  }

  /** In rowid order the head has the smallest id, and the only element
      with that id is the head itself. */
  lemma HeadIsSmallest(s: seq<Reminder>, r: Reminder)
    requires Ascending(s) && r in s
    ensures s[0].id <= r.id
    ensures r.id == s[0].id ==> r == s[0]
  {
    var j :| 0 <= j < |s| && s[j] == r;
    if j > 0 {
      assert s[0].id < s[j].id;
    }
  }

  /** In rowid order everything after the head has a larger id than it. */
  lemma TailAboveHead(s: seq<Reminder>, r: Reminder)
    requires Ascending(s) && s != [] && r in s[1..]
    ensures r.id > s[0].id
  {
    var k :| 0 <= k < |s| - 1 && s[1..][k] == r;
    assert s[k + 1] == r;
  }

  /** A row below every id of an ascending sequence can go in front of it. */
  lemma AscendingCons(x: Reminder, rs: seq<Reminder>)
    requires Ascending(rs) && forall r :: r in rs ==> x.id < r.id
    ensures Ascending([x] + rs)
  {
    forall i, j | 0 <= i < j < |rs| + 1 ensures ([x] + rs)[i].id < ([x] + rs)[j].id {
      assert ([x] + rs)[j] == rs[j - 1];
      if i > 0 {
        assert ([x] + rs)[i] == rs[i - 1];
      }
    }
  }

  /** An element that is not the head lies in the tail. */
  lemma InTail(s: seq<Reminder>, r: Reminder)
    requires r in s && r != s[0]
    ensures r in s[1..]
  {
    assert s == [s[0]] + s[1..];
  }

  /** Rowid order fixes a listing: two ascending sequences with the same
      elements are the same sequence. */
  lemma {:induction false} AscendingUnique(a: seq<Reminder>, b: seq<Reminder>)
    requires Ascending(a) && Ascending(b)
    requires forall r :: r in a <==> r in b
    ensures a == b
  {
    assert a != [] ==> a[0] in b;
    assert b != [] ==> b[0] in a;
    if a != [] && b != [] {
      HeadIsSmallest(b, a[0]);
      HeadIsSmallest(a, b[0]);
      forall r ensures r in a[1..] <==> r in b[1..] {
        if r in a[1..] {
          TailAboveHead(a, r);
          InTail(b, r);
        }
        if r in b[1..] {
          TailAboveHead(b, r);
          InTail(a, r);
        }
      }
      AscendingUnique(a[1..], b[1..]);
      assert a == [a[0]] + a[1..] && b == [b[0]] + b[1..];
    }
  }

  /** The rows whose ids lie in [lo, hi), in rowid order: a scan of the table. */
  function Scan(rows: map<int, Reminder>, lo: int, hi: int): (rs: seq<Reminder>)
    requires WellKeyed(rows)
    ensures Ascending(rs)
    ensures forall r :: r in rs ==> lo <= r.id < hi && r.id in rows && rows[r.id] == r
    ensures forall id :: id in rows && lo <= id < hi ==> rows[id] in rs
    decreases hi - lo
  {
    if hi <= lo then []
    else
      var rest := Scan(rows, lo + 1, hi);
      if lo in rows then [rows[lo]] + rest else rest
  }

  /** The rows of one chat, keeping their order (the WHERE chat_id = ? filter). */
  function Where(rs: seq<Reminder>, chatId: int): (out: seq<Reminder>)
    ensures forall r :: r in out <==> r in rs && r.chatId == chatId
    ensures Ascending(rs) ==> Ascending(out)
  {
    if rs == [] then []
    else
      var rest := Where(rs[1..], chatId);
      assert rs == [rs[0]] + rs[1..];
      assert Ascending(rs) ==> Ascending([rs[0]] + rest) by {
        if Ascending(rs) {
          forall r | r in rest ensures rs[0].id < r.id {
            TailAboveHead(rs, r);
          }
          AscendingCons(rs[0], rest);
        }
      }
      if rs[0].chatId == chatId then [rs[0]] + rest else rest
  }

  class ReminderTable {
    var rows: map<int, Reminder>
    /** The id the next INSERT receives: one past the largest id ever issued. */
    var nextId: int
    /** Every id handed out so far, whether or not its row still exists. */
    ghost var issued: set<int>

    ghost predicate Valid()
      reads this
    {
      && 1 <= nextId
      && WellKeyed(rows)
      && rows.Keys <= issued
      && forall id :: id in issued ==> 1 <= id < nextId
    }

    /** A freshly created database: CREATE TABLE IF NOT EXISTS on an empty file. */
    constructor ()
      ensures Valid() && rows == map[] && nextId == 1 && issued == {}
    {
      rows := map[];
      nextId := 1;
      issued := {};
    }

    /** addReminder: INSERT one row and return its new id. */
    method Add(chatId: int, task: string, remindAt: int) returns (id: int)
      requires Valid()
      modifies this
      ensures Valid()
      ensures id !in old(issued) && issued == old(issued) + {id}
      ensures id !in old(rows)
      ensures rows == old(rows)[id := Reminder(id, chatId, task, remindAt)]
      ensures id == old(nextId) && nextId == id + 1
    {
      id := nextId;
      rows := rows[id := Reminder(id, chatId, task, remindAt)];
      nextId := nextId + 1;
      issued := issued + {id};
    }

    /** getReminders: every row of the table, in rowid order. */
    function AllRows(): (rs: seq<Reminder>)
      reads this
      requires Valid()
      ensures Ascending(rs)
      ensures forall r :: r in rs ==> r.id in rows && rows[r.id] == r
      ensures forall id :: id in rows ==> rows[id] in rs
      ensures rs == [] <==> rows == map[]
    {
      var rs := Scan(rows, 1, nextId);
      assert rs != [] ==> rs[0] in rs;
      assert rs == [] ==> forall id :: id !in rows;
      rs
    }

    /** getUserReminders: exactly the rows of one chat, in rowid order. */
    function RowsOf(chatId: int): (rs: seq<Reminder>)
      reads this
      requires Valid()
      ensures Ascending(rs)
      ensures forall r :: r in rs ==> r.id in rows && rows[r.id] == r && r.chatId == chatId
      ensures forall id :: id in rows && rows[id].chatId == chatId ==> rows[id] in rs
    {
      Where(AllRows(), chatId)
    }

    /** deleteReminder: DELETE the row with this id, if there is one. */
    method Delete(id: int)
      requires Valid()
      modifies this
      ensures Valid()
      ensures rows == old(rows) - {id} && nextId == old(nextId) && issued == old(issued)
      ensures id !in old(rows) ==> rows == old(rows)
    {
      rows := rows - {id};
    }
  }
}
