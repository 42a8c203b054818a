/** The database of arc-intel/indexer/storage.py as far as ingestion writes it,
    as a value that changes only by atomic commits. */
module Ingest {
  import opened Text

  /** The three event tables of the v4 backfill. */
  datatype Topic = Initialize | Swap | Donate

  /** A log as the node returns it: `topics` and `words` count what the decoders count. */
  datatype Log = Log(block: int, txHash: string, logIndex: int, topics: nat, words: nat, poolId: string)

  datatype Key = EventKey(txHash: string, logIndex: int) | PoolKey(poolId: string)

  /** `decode_initialize`, `decode_v4_swap` and `decode_donate` return a row. */
  predicate Decodes(topic: Topic, log: Log) {
    match topic
    case Initialize => log.topics >= 4 && log.words >= 5
    case Swap => log.topics >= 3 && log.words >= 6
    case Donate => log.topics >= 3 && log.words >= 2
  }

  /** The primary key under which the row is inserted. */
  function KeyOf(topic: Topic, log: Log): Key {
    match topic
    case Initialize => PoolKey(Lower(log.poolId))
    case _ => EventKey(Lower(log.txHash), log.logIndex)
  }

  /** Two logs of a topic are the same event: an Initialize is named by its pool, the
      others by transaction and log index, in any letter case. */
  predicate SameEvent(topic: Topic, x: Log, y: Log) {
    if topic == Initialize then Lower(x.poolId) == Lower(y.poolId)
    else Lower(x.txHash) == Lower(y.txHash) && x.logIndex == y.logIndex
  }

  /** They share a row exactly then. */
  lemma SharedRowIff(topic: Topic, x: Log, y: Log)
    ensures KeyOf(topic, x) == KeyOf(topic, y) <==> SameEvent(topic, x, y)
  {
    hide Lower;
  }

  /** The topics and data words a decoder needs. */
  lemma DecodesIff(topic: Topic, log: Log)
    ensures Decodes(topic, log)
       <==> log.topics >= (if topic == Initialize then 4 else 3)
            && log.words >= (if topic == Initialize then 5 else if topic == Swap then 6 else 2)
  {
  }

  datatype Gap = Gap(job: string, fromBlock: int, toBlock: int, reason: string)

  datatype Db = Db(rows: map<(Topic, Key), Log>, gaps: map<Gap, nat>, cursor: map<string, int>)

  /** One committed statement: nothing smaller survives a crash. */
  datatype Commit =
    | PutGap(gap: Gap, attempts: nat)
    | PutRows(topic: Topic, logs: seq<Log>)
    | PutCursor(job: string, block: int)

  /** INSERT OR IGNORE of the decodable logs, in order. */
  function InsertRows(rows: map<(Topic, Key), Log>, topic: Topic, logs: seq<Log>): map<(Topic, Key), Log> {
    if |logs| == 0 then rows
    else
      var before := InsertRows(rows, topic, logs[..|logs| - 1]);
      var log := logs[|logs| - 1];
      if Decodes(topic, log) && (topic, KeyOf(topic, log)) !in before
      then before[(topic, KeyOf(topic, log)) := log] else before
  }

  function Apply(db: Db, c: Commit): Db {
    match c
    case PutGap(gap, attempts) => if gap in db.gaps then db else db.(gaps := db.gaps[gap := attempts])
    case PutRows(topic, logs) => db.(rows := InsertRows(db.rows, topic, logs))
    case PutCursor(job, block) => db.(cursor := db.cursor[job := block])
  }

  function Replay(db: Db, t: seq<Commit>): Db {
    if |t| == 0 then db else Apply(Replay(db, t[..|t| - 1]), t[|t| - 1])
  }

  lemma {:induction false} ReplayConcat(db: Db, s: seq<Commit>, t: seq<Commit>)
    ensures Replay(db, s + t) == Replay(Replay(db, s), t)
  {
    if |t| == 0 {
      assert s + t == s;
    } else {
      assert (s + t)[..|s + t| - 1] == s + t[..|t| - 1];
      ReplayConcat(db, s, t[..|t| - 1]);
    }
  }

  /** Inserting keeps what is stored, stores every decodable log's key, and nothing else. */
  lemma {:induction false} InsertRowsContents(rows: map<(Topic, Key), Log>, topic: Topic, logs: seq<Log>)
    ensures var r := InsertRows(rows, topic, logs);
            && (forall k :: k in rows ==> k in r && r[k] == rows[k])
            && (forall i :: 0 <= i < |logs| && Decodes(topic, logs[i]) ==> (topic, KeyOf(topic, logs[i])) in r)
            && (forall k :: k in r && k !in rows ==>
                  exists i :: 0 <= i < |logs| && Decodes(topic, logs[i]) && k == (topic, KeyOf(topic, logs[i])) && r[k] == logs[i])
  {
    if |logs| > 0 {
      var init := logs[..|logs| - 1];
      InsertRowsContents(rows, topic, init);
      var before, r := InsertRows(rows, topic, init), InsertRows(rows, topic, logs);
      forall k | k in r && k !in rows
        ensures exists i :: 0 <= i < |logs| && Decodes(topic, logs[i]) && k == (topic, KeyOf(topic, logs[i])) && r[k] == logs[i]
      {
        if k in before {
          var i :| 0 <= i < |init| && Decodes(topic, init[i]) && k == (topic, KeyOf(topic, init[i])) && before[k] == init[i];
          assert logs[i] == init[i];
        } else {
          assert k == (topic, KeyOf(topic, logs[|logs| - 1]));
        }
      }
      forall i | 0 <= i < |logs| && Decodes(topic, logs[i]) ensures (topic, KeyOf(topic, logs[i])) in r {
        if i < |init| { assert init[i] == logs[i]; }
      }
    }
  }

  /** Replaying the same insert changes nothing. */
  lemma {:induction false} InsertRowsIdempotent(rows: map<(Topic, Key), Log>, topic: Topic, logs: seq<Log>)
    requires forall i :: 0 <= i < |logs| && Decodes(topic, logs[i]) ==> (topic, KeyOf(topic, logs[i])) in rows
    ensures InsertRows(rows, topic, logs) == rows
  {
    if |logs| > 0 {
      var init := logs[..|logs| - 1];
      forall i | 0 <= i < |init| && Decodes(topic, init[i]) ensures (topic, KeyOf(topic, init[i])) in rows {
        assert init[i] == logs[i];
      }
      InsertRowsIdempotent(rows, topic, init);
    }
  }
}
