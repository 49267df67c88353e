/**
  Storage backends: the committed key-value table a top-level commit is written
  into. Both variants apply a commit the same way, all upserts first and then
  all deletions; the durable variant keeps each value as encoded JSON text and
  applies the whole write as one database transaction.
*/
module Storage {
  import opened KvTypes

  /** What a backend commit does to a table: upsert every change, then remove every deletion. */
  function ApplyCommit<V>(table: map<Key, V>, changes: map<Key, V>, deletions: set<Key>): (r: map<Key, V>)
    ensures forall k :: k in deletions ==> k !in r
    ensures forall k :: k in changes && k !in deletions ==> k in r && r[k] == changes[k]
    ensures forall k :: k !in changes && k !in deletions ==> (k in r <==> k in table)
    ensures forall k :: k in r && k !in changes ==> k in table && r[k] == table[k]
  {
    (table + changes) - deletions
  }

  /** Deleting a key that is absent is a silent no-op. */
  lemma DeleteMissingIsNoOp<V>(table: map<Key, V>, deletions: set<Key>)
    requires deletions !! table.Keys
    ensures ApplyCommit(table, map[], deletions) == table
  {
  }

  // ---------------------------------------------------------------------------
  // JSON text encoding, abstracted

  /**
    The JSON text encoding the durable backend stores values in. `decode` fails
    (None) on text that is not JSON.
  */
  datatype Codec = Codec(encode: Json -> string, decode: string -> Option<Json>)

  /** The encoding is value-preserving: decoding an encoded value gives the value back. */
  ghost predicate RoundTrips(codec: Codec)
  {
    forall v :: codec.decode(codec.encode(v)) == Some(v)
  }

  /** Reading one stored row: the decoded value, or the raw stored text when it is not JSON. */
  function DecodeOrRaw(codec: Codec, text: string): (v: Json)
    ensures codec.decode(text).Some? ==> v == codec.decode(text).value
    ensures codec.decode(text).None? ==> v == JStr(text)
  {
    match codec.decode(text)
    case Some(v) => v
    case None => JStr(text)
  }

  /** The row text a change map is written as. */
  function EncodeAll(codec: Codec, changes: map<Key, Json>): (rows: map<Key, string>)
    ensures rows.Keys == changes.Keys
    ensures forall k :: k in rows ==> rows[k] == codec.encode(changes[k])
    ensures RoundTrips(codec) ==> Decoded(codec, rows) == changes
  {
    map k | k in changes :: codec.encode(changes[k])
  }

  /** The committed mapping a table of stored rows reads back as. */
  function Decoded(codec: Codec, rows: map<Key, string>): (data: map<Key, Json>)
    ensures data.Keys == rows.Keys
    ensures forall k :: k in data ==> data[k] == DecodeOrRaw(codec, rows[k])
  {
    map k | k in rows :: DecodeOrRaw(codec, rows[k])
  }

  /** With a value-preserving encoding, a row written as a value's encoding reads back as that value. */
  lemma EncodedReadsBack(codec: Codec, v: Json)
    requires RoundTrips(codec)
    ensures DecodeOrRaw(codec, codec.encode(v)) == v
  {
  }

  /**
    With a value-preserving encoding, committing to the durable table and
    reading it back gives exactly what the in-memory backend would hold.
  */
  lemma DurableCommitMatchesInMemory(codec: Codec, rows: map<Key, string>,
                                     changes: map<Key, Json>, deletions: set<Key>)
    requires RoundTrips(codec)
    ensures Decoded(codec, ApplyCommit(rows, EncodeAll(codec, changes), deletions))
         == ApplyCommit(Decoded(codec, rows), changes, deletions)
  {
  }

  /**
    Every value a commit writes reads back equal through a fresh reader of the
    same table; rows it does not touch read back as before.
  */
  lemma CommittedValuesReadBack(codec: Codec, rows: map<Key, string>,
                                changes: map<Key, Json>, deletions: set<Key>, k: Key)
    requires RoundTrips(codec)
    ensures var data := Decoded(codec, ApplyCommit(rows, EncodeAll(codec, changes), deletions));
      && (k in changes && k !in deletions ==> k in data && data[k] == changes[k])
      && (k in deletions ==> k !in data)
      && (k !in changes && k !in deletions ==> (k in data <==> k in rows))
  {
  }

  // ---------------------------------------------------------------------------
  // In-memory backend

  /** A process-local table; commits apply directly to it. */
  class InMemoryStorage {
    var data: map<Key, Json>

    constructor ()
      ensures data == map[]
    {
      data := map[];
    }

    /** Nothing to set up. */
    method Initialize()
      ensures unchanged(this)
    {
    }

    /** A copy of the table; the table itself is left as it is. */
    method GetCommittedData() returns (r: map<Key, Json>)
      ensures r == data
    {
      r := data;
    }

    /** Upserts every change, then removes every deletion (absent keys are skipped). */
    method CommitTransaction(changes: map<Key, Json>, deletions: set<Key>)
      modifies this
      ensures data == ApplyCommit(old(data), changes, deletions)
    {
      var pending := changes.Keys;
      while pending != {}
        invariant pending <= changes.Keys
        invariant data == old(data) + (map k | k in changes && k !in pending :: changes[k])
        decreases pending
      {
        var k :| k in pending;
        data := data[k := changes[k]];
        pending := pending - {k};
      }
      assert data == old(data) + changes;
      var left := deletions;
      while left != {}
        invariant left <= deletions
        invariant data == (old(data) + changes) - (deletions - left)
        decreases left
      {
        var k :| k in left;
        data := data - {k};
        left := left - {k};
      }
    }

    /** Nothing to release. */
    method Close()
      ensures unchanged(this)
    {
    }
  }

  // ---------------------------------------------------------------------------
  // Durable (SQLite) backend

  /**
    Where the database raises during a durable commit, if anywhere: at the
    statement that writes or deletes `key`, or at the final COMMIT.
  */
  datatype DbFault = NoFault | FailsOn(key: Key) | FailsAtCommit
  {
    /** The commit of these upserted and deleted keys runs into the fault. */
    predicate Hits(upserted: set<Key>, deleted: set<Key>)
    {
      FailsAtCommit? || (FailsOn? && (key in upserted || key in deleted))
    }
  }

  /**
    A database file holding one `kv_data` row per key, the value stored as
    JSON text. `rows` is the committed table; `connected` is whether a
    connection is open. `codec` stands for the JSON library.
  */
  class SQLiteStorage {
    const codec: Codec
    var rows: map<Key, string>
    var connected: bool

    /** Opens (lazily) the database file whose committed table is `file`. */
    constructor (codec: Codec, file: map<Key, string>)
      requires RoundTrips(codec)
      ensures this.codec == codec && rows == file && !connected
    {
      this.codec := codec;
      rows := file;
      connected := false;
    }

    /** Opens the connection and creates the table when missing; existing rows stay. */
    method Initialize()
      modifies this
      ensures connected && rows == old(rows)
    {
      connected := true;
    }

    /**
      Every stored row with its decoded value; a row whose text is not JSON is
      returned as the raw stored text.
    */
    method GetCommittedData() returns (r: map<Key, Json>)
      modifies this
      ensures connected && rows == old(rows)
      ensures r == Decoded(codec, rows)
    {
      if !connected {
        Initialize();
      }
      r := map[];
      var unread := rows.Keys;
      while unread != {}
        invariant unread <= rows.Keys
        invariant r == map k | k in rows && k !in unread :: DecodeOrRaw(codec, rows[k])
        decreases unread
      {
        var k :| k in unread;
        r := r[k := DecodeOrRaw(codec, rows[k])];
        unread := unread - {k};
      }
    }

    /**
      Writes the changes (as encoded text) and then the deletions inside one
      database transaction. `fault` is the environment: which statement, if
      any, the database raises at. On a fault the write is rolled back, the
      table is unchanged and RuntimeError is raised.
    */
    method CommitTransaction(changes: map<Key, Json>, deletions: set<Key>, fault: DbFault)
      returns (out: Outcome<Fault>)
      modifies this
      ensures connected
      ensures out.Fail? <==> fault.Hits(changes.Keys, deletions)
      ensures out.Pass? ==> rows == ApplyCommit(old(rows), EncodeAll(codec, changes), deletions)
      ensures out.Fail? ==> out.error == RuntimeError && rows == old(rows)
    {
      if !connected {
        Initialize();
      }
      var written, raised := UpsertRows(rows, EncodeAll(codec, changes), fault);
      if !raised {
        written, raised := DeleteRows(written, deletions, fault);
      }
      if raised || fault == FailsAtCommit {
        // the database transaction is rolled back: the table keeps its old rows
        out := Fail(RuntimeError);
      } else {
        rows := written;
        out := Pass;
      }
    }

    /** Closes the connection; the file keeps its rows. */
    method Close()
      modifies this
      ensures !connected && rows == old(rows)
    {
      connected := false;
    }
  }

  /**
    The upsert statements of a durable commit, one per change; `raised` when
    the database raises at one of them.
  */
  method UpsertRows(table: map<Key, string>, encoded: map<Key, string>, fault: DbFault)
    returns (written: map<Key, string>, raised: bool)
    ensures raised <==> fault.FailsOn? && fault.key in encoded
    ensures !raised ==> written == table + encoded
  {
    written := table;
    raised := false;
    var pending := encoded.Keys;
    while pending != {}
      invariant pending <= encoded.Keys
      invariant fault.FailsOn? && fault.key in encoded ==> fault.key in pending
      invariant written == table + (map k | k in encoded && k !in pending :: encoded[k])
      decreases pending
    {
      var k :| k in pending;
      if fault == FailsOn(k) {
        raised := true;
        return;
      }
      written := written[k := encoded[k]];
      pending := pending - {k};
    }
  }

  /** The delete statements of a durable commit; `raised` when the database raises at one of them. */
  method DeleteRows(table: map<Key, string>, deletions: set<Key>, fault: DbFault)
    returns (written: map<Key, string>, raised: bool)
    ensures raised <==> fault.FailsOn? && fault.key in deletions
    ensures !raised ==> written == table - deletions
  {
    written := table;
    raised := false;
    var left := deletions;
    while left != {}
      invariant left <= deletions
      invariant fault.FailsOn? && fault.key in deletions ==> fault.key in left
      invariant written == table - (deletions - left)
      decreases left
    {
      var k :| k in left;
      if fault == FailsOn(k) {
        raised := true;
        return;
      }
      written := written - {k};
      left := left - {k};
    }
  }

  // ---------------------------------------------------------------------------
  // Backend selection

  /** The backend a store is built with, chosen by the caller (or none). */
  datatype Backend =
    | NoBackend
    | InMemory(mem: InMemoryStorage)
    | Durable(db: SQLiteStorage)
  {
    ghost function Objects(): set<object>
    {
      match this
      case NoBackend => {}
      case InMemory(m) => {m}
      case Durable(d) => {d}
    }

    /** The durable backend's encoding is value-preserving. */
    ghost predicate Valid()
    {
      Durable? ==> RoundTrips(db.codec)
    }

    /** What the backend's `get_committed_data` returns in the current state. */
    ghost function CommittedView(): map<Key, Json>
      reads Objects()
    {
      match this
      case NoBackend => map[]
      case InMemory(m) => m.data
      case Durable(d) => Decoded(d.codec, d.rows)
    }
  }
}
