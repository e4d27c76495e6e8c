/** The interning table of `NonCollidableHashForeignerKey`: long strings live once in a referenced
    table, and rows elsewhere hold a (hash, collider) key. Nothing is assumed of the hash function. */
module Interning {
  import opened Wrappers

  datatype Row = Row(hash: string, collider: int, value: string)

  /** The two nullable key columns of a referencing row. */
  datatype Key = Key(hash: Option<string>, collider: Option<int>)

  const NO_KEY := Key(None, None)

  const MAX_ENTITY_STRING_LENGTH := 7900

  /** Cuts a value to what a column can hold. */
  function Convert(value: string): (r: string)
    ensures r <= value && |r| <= MAX_ENTITY_STRING_LENGTH
    ensures r == value || |r| == MAX_ENTITY_STRING_LENGTH
  {
    if |value| <= MAX_ENTITY_STRING_LENGTH then value else value[..MAX_ENTITY_STRING_LENGTH]
  }

  // ---------------------------------------------------------------- queries

  function Colliders(rows: seq<Row>, hash: string): seq<int> {
    if rows == [] then []
    else
      var last := rows[|rows| - 1];
      Colliders(rows[..|rows| - 1], hash) + if last.hash == hash then [last.collider] else []
  }

  function Max(s: seq<int>): (m: int)
    requires s != []
    ensures m in s && forall i :: 0 <= i < |s| ==> s[i] <= m
  {
    if |s| == 1 then s[0]
    else
      var m := Max(s[..|s| - 1]);
      if m < s[|s| - 1] then s[|s| - 1] else m
  }

  /** One more than the largest collider of the hash, with 0 standing in when there is none. */
  function FirstFreeCollider(rows: seq<Row>, hash: string): int {
    var used := Colliders(rows, hash);
    Max(if used == [] then [0] else used) + 1
  }

  /** The first row holding the value under the hash. */
  function FindValue(rows: seq<Row>, hash: string, value: string): (r: Option<Row>)
    ensures r.Some? ==> r.value in rows && r.value.hash == hash && r.value.value == value
    ensures r.None? ==> forall i :: 0 <= i < |rows| ==> rows[i].hash != hash || rows[i].value != value
  {
    if rows == [] then None
    else if rows[0].hash == hash && rows[0].value == value then Some(rows[0])
    else FindValue(rows[1..], hash, value)
  }

  /** The first row with the key. */
  function FindKey(rows: seq<Row>, hash: string, collider: int): (r: Option<Row>)
    ensures r.Some? ==> r.value in rows && r.value.hash == hash && r.value.collider == collider
    ensures r.None? ==> forall i :: 0 <= i < |rows| ==> rows[i].hash != hash || rows[i].collider != collider
  {
    if rows == [] then None
    else if rows[0].hash == hash && rows[0].collider == collider then Some(rows[0])
    else FindKey(rows[1..], hash, collider)
  }

  function ValueOf(rows: seq<Row>, key: Key): Option<string> {
    if key.hash.None? || key.collider.None? then None
    else
      match FindKey(rows, key.hash.value, key.collider.value)
      case None => None
      case Some(r) => Some(r.value)
  }

  // ---------------------------------------------------------------- writing

  /** The row that will hold a value already cut to length: the one that does, or a new one. */
  function RowFor(rows: seq<Row>, hasher: string -> string, v: string): Row {
    var h := hasher(v);
    if Colliders(rows, h) == [] then Row(h, 1, v)
    else
      match FindValue(rows, h, v)
      case Some(r) => r
      case None => Row(h, FirstFreeCollider(rows, h), v)
  }

  function WithValue(rows: seq<Row>, hasher: string -> string, v: string): seq<Row> {
    if FindValue(rows, hasher(v), v).Some? then rows else rows + [RowFor(rows, hasher, v)]
  }

  predicate Blank(white: char -> bool, value: Option<string>) {
    value.None? || forall i :: 0 <= i < |value.value| ==> white(value.value[i])
  }

  /** What a write should leave behind, in a table that stores values directly. */
  function Plain(white: char -> bool, value: Option<string>): Option<string> {
    if Blank(white, value) then None else Some(Convert(value.value))
  }

  /** The referenced table, and the keys of the referencing rows; a row never written has none. */
  datatype Db = Db(rows: seq<Row>, keys: map<nat, Key>)

  const EMPTY := Db([], map[])

  function KeyOf(db: Db, id: nat): Key {
    if id in db.keys then db.keys[id] else NO_KEY
  }

  function GetValue(db: Db, id: nat): Option<string> {
    ValueOf(db.rows, KeyOf(db, id))
  }

  datatype Write = Write(id: nat, value: Option<string>)

  function Apply(white: char -> bool, hasher: string -> string, db: Db, w: Write): Db {
    match Plain(white, w.value)
    case None => db.(keys := db.keys[w.id := NO_KEY])
    case Some(v) =>
      var row := RowFor(db.rows, hasher, v);
      Db(WithValue(db.rows, hasher, v), db.keys[w.id := Key(Some(row.hash), Some(row.collider))])
  }

  function Run(white: char -> bool, hasher: string -> string, db: Db, writes: seq<Write>): Db {
    if writes == [] then db
    else Apply(white, hasher, Run(white, hasher, db, writes[..|writes| - 1]), writes[|writes| - 1])
  }

  // ---------------------------------------------------------------- the invariant

  /** The colliders of a hash, in row order, are 1, 2, ..., n. */
  ghost predicate Numbered(rows: seq<Row>, hash: string) {
    forall i :: 0 <= i < |Colliders(rows, hash)| ==> Colliders(rows, hash)[i] == i + 1
  }

  ghost predicate Sound(rows: seq<Row>, hasher: string -> string) {
    && (forall i :: 0 <= i < |rows| ==> rows[i].hash == hasher(rows[i].value))
    && (forall i, j :: 0 <= i < j < |rows| ==> rows[i].value != rows[j].value)
    && (forall i, j :: 0 <= i < j < |rows| ==> rows[i].hash != rows[j].hash || rows[i].collider != rows[j].collider)
    && (forall h :: Numbered(rows, h))
  }

  /** A key is null in both columns or refers to a row. */
  ghost predicate Refers(rows: seq<Row>, key: Key) {
    key == NO_KEY || exists i :: 0 <= i < |rows| && key == Key(Some(rows[i].hash), Some(rows[i].collider))
  }

  ghost predicate SoundDb(db: Db, hasher: string -> string) {
    Sound(db.rows, hasher) && forall id :: Refers(db.rows, KeyOf(db, id))
  }

  lemma {:induction false} ColliderListed(rows: seq<Row>, i: nat)
    requires i < |rows|
    ensures rows[i].collider in Colliders(rows, rows[i].hash)
  {
    var n := |rows| - 1;
    if i < n {
      ColliderListed(rows[..n], i);
    }
  }

  lemma FoundByKey(rows: seq<Row>, hasher: string -> string, i: nat)
    requires Sound(rows, hasher) && i < |rows|
    ensures FindKey(rows, rows[i].hash, rows[i].collider) == Some(rows[i])
  {
    var r := FindKey(rows, rows[i].hash, rows[i].collider);
    assert r.Some?;
    var j :| 0 <= j < |rows| && rows[j] == r.value;
    assert j == i;
  }

  /** The row chosen for a value has that value and its hash, and a number no other row of the hash has. */
  lemma RowChosen(rows: seq<Row>, hasher: string -> string, v: string)
    requires Sound(rows, hasher)
    ensures var r := RowFor(rows, hasher, v);
      && r.value == v && r.hash == hasher(v)
      && (FindValue(rows, hasher(v), v).Some? ==> r in rows)
      && (FindValue(rows, hasher(v), v).None? ==> r.collider == |Colliders(rows, r.hash)| + 1)
  {
    var used := Colliders(rows, hasher(v));
    assert Numbered(rows, hasher(v));
    if FindValue(rows, hasher(v), v).Some? {
      var i :| 0 <= i < |rows| && rows[i] == FindValue(rows, hasher(v), v).value;
      ColliderListed(rows, i);
    } else if used != [] {
      assert used[|used| - 1] == |used|;
    }
  }

  lemma AddingKeepsSound(rows: seq<Row>, hasher: string -> string, r: Row)
    requires Sound(rows, hasher) && r.hash == hasher(r.value) && r.collider == |Colliders(rows, r.hash)| + 1
    requires FindValue(rows, r.hash, r.value).None?
    ensures Sound(rows + [r], hasher)
  {
    var more := rows + [r];
    assert more[..|rows|] == rows;
    forall h ensures Numbered(more, h) {
      assert Numbered(rows, h);
    }
    assert Numbered(rows, r.hash);
    forall i | 0 <= i < |rows|
      ensures rows[i].value != r.value && (rows[i].hash != r.hash || rows[i].collider != r.collider)
    {
      ColliderListed(rows, i);
    }
  }

  lemma WritingKeepsSound(rows: seq<Row>, hasher: string -> string, v: string)
    requires Sound(rows, hasher)
    ensures Sound(WithValue(rows, hasher, v), hasher) && rows <= WithValue(rows, hasher, v)
    ensures RowFor(rows, hasher, v) in WithValue(rows, hasher, v)
  {
    RowChosen(rows, hasher, v);
    if FindValue(rows, hasher(v), v).None? {
      AddingKeepsSound(rows, hasher, RowFor(rows, hasher, v));
    }
  }

  /** Keys that refer to a row read the same after rows are added. */
  lemma ReadsTheSame(rows: seq<Row>, more: seq<Row>, hasher: string -> string, key: Key)
    requires Sound(rows, hasher) && Sound(more, hasher) && rows <= more && Refers(rows, key)
    ensures Refers(more, key) && ValueOf(more, key) == ValueOf(rows, key)
  {
    if key != NO_KEY {
      var i :| 0 <= i < |rows| && key == Key(Some(rows[i].hash), Some(rows[i].collider));
      FoundByKey(rows, hasher, i);
      FoundByKey(more, hasher, i);
      assert rows[i] == more[i];
    }
  }

  lemma KeyReads(rows: seq<Row>, hasher: string -> string, r: Row)
    requires Sound(rows, hasher) && r in rows
    ensures var key := Key(Some(r.hash), Some(r.collider));
      Refers(rows, key) && ValueOf(rows, key) == Some(r.value)
  {
    var i :| 0 <= i < |rows| && rows[i] == r;
    FoundByKey(rows, hasher, i);
  }

  /** Storing a value gives a row whose key reads it, and changes what no key reads. */
  lemma InterningKeepsValues(rows: seq<Row>, hasher: string -> string, v: string)
    requires Sound(rows, hasher)
    ensures var rows', row := WithValue(rows, hasher, v), RowFor(rows, hasher, v);
      && Sound(rows', hasher) && rows <= rows'
      && Refers(rows', Key(Some(row.hash), Some(row.collider)))
      && ValueOf(rows', Key(Some(row.hash), Some(row.collider))) == Some(v)
      && forall key: Key :: Refers(rows, key) ==> Refers(rows', key) && ValueOf(rows', key) == ValueOf(rows, key)
  {
    var rows', row := WithValue(rows, hasher, v), RowFor(rows, hasher, v);
    RowChosen(rows, hasher, v);
    WritingKeepsSound(rows, hasher, v);
    KeyReads(rows', hasher, row);
    forall key: Key | Refers(rows, key) ensures Refers(rows', key) && ValueOf(rows', key) == ValueOf(rows, key) {
      ReadsTheSame(rows, rows', hasher, key);
    }
  }

  lemma FoundUnderItsHash(rows: seq<Row>, hash: string, value: string)
    ensures FindValue(rows, hash, value).Some? ==> Colliders(rows, hash) != []
  {
    if FindValue(rows, hash, value).Some? {
      var i :| 0 <= i < |rows| && rows[i] == FindValue(rows, hash, value).value;
      ColliderListed(rows, i);
    }
  }

  // ---------------------------------------------------------------- theorems

  /** One write: the written row reads back the plain value, every other row reads what it did. */
  lemma ApplyRefines(white: char -> bool, hasher: string -> string, db: Db, w: Write)
    requires SoundDb(db, hasher)
    ensures var db' := Apply(white, hasher, db, w);
      && SoundDb(db', hasher)
      && GetValue(db', w.id) == Plain(white, w.value)
      && forall id :: id != w.id ==> GetValue(db', id) == GetValue(db, id)
  {
    var db' := Apply(white, hasher, db, w);
    if Plain(white, w.value).Some? {
      InterningKeepsValues(db.rows, hasher, Plain(white, w.value).value);
    }
    forall id ensures Refers(db'.rows, KeyOf(db', id)) && (id != w.id ==> GetValue(db', id) == GetValue(db, id)) {
      assert Refers(db.rows, KeyOf(db, id));
    }
  }

  /** The value last written to a row in a table that stores values directly. */
  function LastWritten(white: char -> bool, before: Option<string>, writes: seq<Write>, id: nat): Option<string> {
    if writes == [] then before
    else
      var w := writes[|writes| - 1];
      if w.id == id then Plain(white, w.value) else LastWritten(white, before, writes[..|writes| - 1], id)
  }

  /** The interning table is a plain map: for every hash function and every run of writes. */
  lemma {:induction false} InterningRefinesMap(white: char -> bool, hasher: string -> string, db: Db, writes: seq<Write>, id: nat)
    requires SoundDb(db, hasher)
    ensures var after := Run(white, hasher, db, writes);
      SoundDb(after, hasher) && GetValue(after, id) == LastWritten(white, GetValue(db, id), writes, id)
  {
    if writes != [] {
      var front, w := writes[..|writes| - 1], writes[|writes| - 1];
      InterningRefinesMap(white, hasher, db, front, id);
      ApplyRefines(white, hasher, Run(white, hasher, db, front), w);
    }
  }

  lemma EmptyIsSound(hasher: string -> string)
    ensures SoundDb(EMPTY, hasher)
  {
    forall h ensures Numbered([], h) {}
    forall id ensures Refers([], KeyOf(EMPTY, id)) {}
  }

  ghost predicate WasWritten(white: char -> bool, writes: seq<Write>, v: string) {
    exists i :: 0 <= i < |writes| && Plain(white, writes[i].value) == Some(v)
  }

  ghost predicate IsStored(rows: seq<Row>, v: string) {
    exists i :: 0 <= i < |rows| && rows[i].value == v
  }

  /** From an empty table, exactly the values ever written are stored; `Sound` adds: each in one row. */
  lemma {:induction false} StoresWhatWasWritten(white: char -> bool, hasher: string -> string, writes: seq<Write>, v: string)
    ensures var after := Run(white, hasher, EMPTY, writes);
      && SoundDb(after, hasher)
      && (IsStored(after.rows, v) <==> WasWritten(white, writes, v))
  {
    EmptyIsSound(hasher);
    if writes != [] {
      var front, w := writes[..|writes| - 1], writes[|writes| - 1];
      StoresWhatWasWritten(white, hasher, front, v);
      var before := Run(white, hasher, EMPTY, front);
      ApplyRefines(white, hasher, before, w);
      WrittenByOneMore(white, writes, v);
      StoredByOneMore(white, hasher, before, w, v);
    }
  }

  lemma WrittenByOneMore(white: char -> bool, writes: seq<Write>, v: string)
    requires writes != []
    ensures var n := |writes| - 1;
      WasWritten(white, writes, v) <==> WasWritten(white, writes[..n], v) || Plain(white, writes[n].value) == Some(v)
  {
    var n := |writes| - 1;
    if WasWritten(white, writes, v) && Plain(white, writes[n].value) != Some(v) {
      var i :| 0 <= i < |writes| && Plain(white, writes[i].value) == Some(v);
      assert writes[..n][i] == writes[i];
    }
    if WasWritten(white, writes[..n], v) {
      var i :| 0 <= i < n && Plain(white, writes[..n][i].value) == Some(v);
      assert writes[i] == writes[..n][i];
    }
  }

  lemma StoredByOneMore(white: char -> bool, hasher: string -> string, db: Db, w: Write, v: string)
    requires SoundDb(db, hasher)
    ensures IsStored(Apply(white, hasher, db, w).rows, v) <==> IsStored(db.rows, v) || Plain(white, w.value) == Some(v)
  {
    var rows := Apply(white, hasher, db, w).rows;
    if Plain(white, w.value).Some? {
      var x := Plain(white, w.value).value;
      RowChosen(db.rows, hasher, x);
      WritingKeepsSound(db.rows, hasher, x);
      if IsStored(rows, v) {
        var i :| 0 <= i < |rows| && rows[i].value == v;
        assert i < |db.rows| ==> db.rows[i].value == v;
      }
      if IsStored(db.rows, v) {
        var i :| 0 <= i < |db.rows| && db.rows[i].value == v;
        assert rows[i].value == v;
      }
    }
  }

  /** Two rows hold equal keys exactly when they read equal values, in every sound database. */
  lemma KeysAgreeWithValues(db: Db, hasher: string -> string, a: nat, b: nat)
    requires SoundDb(db, hasher)
    ensures KeyOf(db, a) == KeyOf(db, b) <==> GetValue(db, a) == GetValue(db, b)
    ensures KeyOf(db, a) == NO_KEY <==> GetValue(db, a) == None
  {
    assert Refers(db.rows, KeyOf(db, a)) && Refers(db.rows, KeyOf(db, b));
    KeyIsHeldByARow(db, hasher, a);
    KeyIsHeldByARow(db, hasher, b);
  }

  lemma KeyIsHeldByARow(db: Db, hasher: string -> string, id: nat)
    requires SoundDb(db, hasher)
    ensures KeyOf(db, id) == NO_KEY ==> GetValue(db, id) == None
    ensures KeyOf(db, id) != NO_KEY ==> exists i {:trigger db.rows[i]} :: (
      && 0 <= i < |db.rows| && GetValue(db, id) == Some(db.rows[i].value)
      && KeyOf(db, id) == Key(Some(db.rows[i].hash), Some(db.rows[i].collider)))
  {
    assert Refers(db.rows, KeyOf(db, id));
    if KeyOf(db, id) != NO_KEY {
      var i :| 0 <= i < |db.rows| && KeyOf(db, id) == Key(Some(db.rows[i].hash), Some(db.rows[i].collider));
      FoundByKey(db.rows, hasher, i);
    }
  }

  // ---------------------------------------------------------------- numbers, row by row

  /** The rows before the n-th that have a hash. */
  function Earlier(rows: seq<Row>, n: nat, hash: string): set<nat>
    requires n <= |rows|
  {
    set j: nat | j < n && rows[j].hash == hash
  }

  lemma {:induction false} CollidersAreCounted(rows: seq<Row>, n: nat, hash: string)
    requires n <= |rows|
    ensures |Colliders(rows[..n], hash)| == |Earlier(rows, n, hash)|
  {
    if n > 0 {
      CollidersAreCounted(rows, n - 1, hash);
      assert rows[..n][..n - 1] == rows[..n - 1];
      var before := Earlier(rows, n - 1, hash);
      assert Earlier(rows, n, hash) == if rows[n - 1].hash == hash then before + {n - 1} else before;
      assert n - 1 !in before;
    }
  }

  /** A row's collider stands where the rows before it with the same hash leave off. */
  lemma {:induction false} ColliderAt(rows: seq<Row>, i: nat)
    requires i < |rows|
    ensures var h := rows[i].hash;
      var n := |Colliders(rows[..i], h)|;
      n < |Colliders(rows, h)| && Colliders(rows, h)[n] == rows[i].collider
  {
    var last := |rows| - 1;
    if i < last {
      ColliderAt(rows[..last], i);
      assert rows[..last][..i] == rows[..i];
    } else {
      assert rows[..last] == rows[..i];
    }
  }

  /** In every sound table, a row's collider is one more than the number of rows before it with the same hash. */
  lemma NumberedByHash(rows: seq<Row>, hasher: string -> string, i: nat)
    requires Sound(rows, hasher) && i < |rows|
    ensures rows[i].collider == 1 + |Earlier(rows, i, rows[i].hash)|
  {
    assert Numbered(rows, rows[i].hash);
    ColliderAt(rows, i);
    CollidersAreCounted(rows, i, rows[i].hash);
  }

  /** In every table, sound or not, the number given to a new row is above all those of its hash and follows the
      largest of them; it is 1 if there is none. */
  lemma FirstFreeIsNext(rows: seq<Row>, hash: string)
    ensures forall i :: 0 <= i < |rows| && rows[i].hash == hash ==> rows[i].collider < FirstFreeCollider(rows, hash)
    ensures if exists i :: 0 <= i < |rows| && rows[i].hash == hash
      then exists i :: 0 <= i < |rows| && rows[i].hash == hash && rows[i].collider == FirstFreeCollider(rows, hash) - 1
      else FirstFreeCollider(rows, hash) == 1
  {
    var used := Colliders(rows, hash);
    forall i | 0 <= i < |rows| && rows[i].hash == hash ensures rows[i].collider in used { ColliderListed(rows, i); }
    if used != [] {
      var i := ColliderOwned(rows, hash, Max(used));
    }
  }

  lemma {:induction false} ColliderOwned(rows: seq<Row>, hash: string, c: int) returns (i: nat)
    requires c in Colliders(rows, hash)
    ensures i < |rows| && rows[i].hash == hash && rows[i].collider == c
  {
    var last := |rows| - 1;
    if rows[last].hash == hash && rows[last].collider == c {
      i := last;
    } else {
      i := ColliderOwned(rows[..last], hash, c);
    }
  }

  /** What storing a value does to any table: an equal row stays the only one, a new hash starts at 1, and a new
      value under a known hash gets the next number. */
  lemma StoringExactly(rows: seq<Row>, hasher: string -> string, v: string)
    ensures var h, row := hasher(v), RowFor(rows, hasher, v);
      if exists i :: 0 <= i < |rows| && rows[i].hash == h && rows[i].value == v
      then WithValue(rows, hasher, v) == rows && row in rows && row.hash == h && row.value == v
      else WithValue(rows, hasher, v) == rows + [Row(h, FirstFreeCollider(rows, h), v)] && row == Row(h, FirstFreeCollider(rows, h), v)
  {
    var h := hasher(v);
    FoundUnderItsHash(rows, h, v);
    FirstFreeIsNext(rows, h);
    if Colliders(rows, h) != [] {
      var i := ColliderOwned(rows, h, Colliders(rows, h)[0]);
    }
  }

  /** What is read back after a write: nothing for null, empty or blank, else the first 7900 characters. */
  lemma WriteIsReadBack(white: char -> bool, hasher: string -> string, db: Db, id: nat, value: Option<string>)
    requires SoundDb(db, hasher)
    ensures var r := GetValue(Apply(white, hasher, db, Write(id, value)), id);
      match value
      case None => r == None
      case Some(v) =>
        if exists i :: 0 <= i < |v| && !white(v[i]) then r == Some(if |v| <= 7900 then v else v[..7900]) else r == None
  {
    ApplyRefines(white, hasher, db, Write(id, value));
  }

  // ---------------------------------------------------------------- the object

  /** A row of the referencing table. */
  class Referencer {
    var hash: Option<string>
    var collider: Option<int>

    constructor ()
      ensures Current() == NO_KEY
    {
      hash, collider := None, None;
    }

    function Current(): Key
      reads this
    {
      Key(hash, collider)
    }
  }

  /** The algorithm over a referenced table whose added rows are visible to the next query. */
  class ForeignKey {
    const white: char -> bool
    const hasher: string -> string
    var rows: seq<Row>

    constructor (white: char -> bool, hasher: string -> string)
      ensures rows == [] && this.hasher == hasher && this.white == white && Sound(rows, hasher)
    {
      this.white, this.hasher, rows := white, hasher, [];
      new;
      EmptyIsSound(hasher);
    }

    method AddNewValue(referencer: Referencer, newHash: string, value: string, newCollider: int) returns (row: Row)
      modifies this`rows, referencer
      ensures row == Row(newHash, newCollider, value) && rows == old(rows) + [row]
      ensures referencer.Current() == Key(Some(row.hash), Some(row.collider))
    {
      referencer.hash := Some(newHash);
      referencer.collider := Some(newCollider);
      row := Row(newHash, newCollider, value);
      rows := rows + [row];
    }

    /** Sets the key of a row so that it reads the value; no other key changes its value. */
    method InsertOrUpdateValue(referencer: Referencer, value: Option<string>) returns (row: Option<Row>)
      modifies this`rows, referencer
      ensures old(Sound(rows, hasher)) ==>
        && Sound(rows, hasher) && old(rows) <= rows
        && Refers(rows, referencer.Current()) && ValueOf(rows, referencer.Current()) == Plain(white, value)
        && forall key: Key :: old(Refers(rows, key)) ==> Refers(rows, key) && ValueOf(rows, key) == old(ValueOf(rows, key))
      ensures match Plain(white, value)
        case None => row == None && rows == old(rows) && referencer.Current() == NO_KEY
        case Some(v) =>
          && row == Some(RowFor(old(rows), hasher, v)) && rows == WithValue(old(rows), hasher, v)
          && referencer.Current() == Key(Some(row.value.hash), Some(row.value.collider))
    {
      if Blank(white, value) {
        referencer.hash := None;
        referencer.collider := None;
        return None;
      }
      var v := Convert(value.value);
      var newHash := hasher(v);
      FoundUnderItsHash(rows, newHash, v);
      if Sound(rows, hasher) {
        InterningKeepsValues(rows, hasher, v);
      }
      if Colliders(rows, newHash) != [] {
        row := FindValue(rows, newHash, v);
        if row == None {
          var added := AddNewValue(referencer, newHash, v, FirstFreeCollider(rows, newHash));
          row := Some(added);
        } else {
          referencer.hash := Some(newHash);
          referencer.collider := Some(row.value.collider);
        }
      } else {
        var added := AddNewValue(referencer, newHash, v, 1);
        row := Some(added);
      }
    }
  }
}
