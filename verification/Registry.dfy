/** The registry of live OpAMP connections: which connection each agent is reachable on. */
module Registry {
  import opened Common
  import opened Agents

  /** A connection, compared by identity; `peer` is the host of its remote address, "" when unreadable. */
  datatype Conn = Conn(id: nat, peer: string)

  /** `metricsPort` is 0 when the agent has not advertised one. */
  datatype ConnEntry = ConnEntry(conn: Option<Conn>, remoteIp: string, metricsPort: nat)

  type Conns = map<Uid, ConnEntry>

  datatype ScrapeTarget = ScrapeTarget(uid: Uid, remoteIp: string, port: nat)

  // ---------------------------------------------------------------- the operations as functions

  function PortOf(conns: Conns, uid: Uid): nat {
    if uid in conns then conns[uid].metricsPort else 0
  }

  function Registered(conns: Conns, uid: Uid, conn: Conn): Conns {
    conns[uid := ConnEntry(Some(conn), conn.peer, PortOf(conns, uid))]
  }

  function Advertised(conns: Conns, uid: Uid, port: nat): Conns {
    var e := if uid in conns then conns[uid] else ConnEntry(None, "", 0);
    conns[uid := e.(metricsPort := port)]
  }

  predicate Holds(conns: Conns, uid: Uid, conn: Conn) {
    uid in conns && conns[uid].conn == Some(conn)
  }

  /** One entry that holds the connection is gone, if there was any; which one is not determined. */
  ghost predicate Removed(conns: Conns, after: Conns, conn: Conn) {
    if exists uid :: Holds(conns, uid, conn)
    then exists uid :: Holds(conns, uid, conn) && after == conns - {uid}
    else after == conns
  }

  predicate Scrapable(conns: Conns, uid: Uid) {
    uid in conns && conns[uid].metricsPort != 0 && conns[uid].remoteIp != ""
  }

  function Decimal(digits: string): nat {
    if digits == "" then 0
    else
      var c := digits[|digits| - 1];
      10 * Decimal(digits[..|digits| - 1]) + if '0' <= c <= '9' then c as int - '0' as int else 0
  }

  /** The port an attribute advertises: a decimal number of 16 bits, 0 for anything else. */
  function ParsePort(raw: string): nat {
    if raw == "" || (exists c :: c in raw && !('0' <= c <= '9')) then 0
    else if Decimal(raw) < 0x1_0000 then Decimal(raw) else 0
  }

  /** A number in decimal notation. */
  function Digits(n: nat): string {
    (if n < 10 then "" else Digits(n / 10)) + [('0' as int + n % 10) as char]
  }

  lemma {:induction false} DigitsReadBack(n: nat)
    ensures Digits(n) != "" && Decimal(Digits(n)) == n && forall c :: c in Digits(n) ==> '0' <= c <= '9'
  {
    var s := Digits(n);
    if n >= 10 { DigitsReadBack(n / 10); }
    assert s[..|s| - 1] == if n < 10 then "" else Digits(n / 10);
  }

  /** A port in decimal notation is read as itself, a larger number or anything else as none. */
  lemma PortReadsBack(n: nat)
    ensures ParsePort(Digits(n)) == if n <= 65535 then n else 0
  {
    DigitsReadBack(n);
  }

  class ConnRegistry {
    var byUid: Conns

    constructor ()
      ensures byUid == map[]
    {
      byUid := map[];
    }

    method Set(uid: Uid, conn: Conn)
      modifies this
      ensures byUid == Registered(old(byUid), uid, conn)
    {
      var prevPort := if uid in byUid then byUid[uid].metricsPort else 0;
      byUid := byUid[uid := ConnEntry(Some(conn), conn.peer, prevPort)];
    }

    method SetMetricsPort(uid: Uid, port: nat)
      modifies this
      ensures byUid == Advertised(old(byUid), uid, port)
    {
      var e := if uid in byUid then byUid[uid] else ConnEntry(None, "", 0);
      byUid := byUid[uid := e.(metricsPort := port)];
    }

    method Get(uid: Uid) returns (conn: Option<Conn>, ok: bool)
      ensures ok == (uid in byUid)
      ensures conn == if ok then byUid[uid].conn else None
    {
      if uid in byUid {
        return byUid[uid].conn, true;
      }
      return None, false;
    }

    method RemoveByConn(conn: Conn)
      modifies this
      ensures Removed(old(byUid), byUid, conn)
    {
      var todo := byUid.Keys;
      while todo != {}
        invariant todo <= byUid.Keys && byUid == old(byUid)
        invariant forall uid :: Holds(byUid, uid, conn) ==> uid in todo
        decreases todo
      {
        var uid :| uid in todo;
        if byUid[uid].conn == Some(conn) {
          assert Holds(old(byUid), uid, conn);
          byUid := byUid - {uid};
          return;
        }
        todo := todo - {uid};
      }
    }

    /** Every agent that can be scraped, each once, in an arbitrary order. */
    method Snapshot() returns (out: seq<ScrapeTarget>)
      ensures forall i, j :: 0 <= i < j < |out| ==> out[i].uid != out[j].uid
      ensures forall uid :: Scrapable(byUid, uid) <==> exists i :: 0 <= i < |out| && out[i].uid == uid
      ensures forall i :: 0 <= i < |out| ==>
        && out[i].uid in byUid
        && out[i].remoteIp == byUid[out[i].uid].remoteIp
        && out[i].port == byUid[out[i].uid].metricsPort
    {
      out := [];
      var todo := byUid.Keys;
      while todo != {}
        invariant todo <= byUid.Keys
        invariant forall i, j :: 0 <= i < j < |out| ==> out[i].uid != out[j].uid
        invariant forall i :: 0 <= i < |out| ==>
          && out[i].uid !in todo && Scrapable(byUid, out[i].uid)
          && out[i].remoteIp == byUid[out[i].uid].remoteIp && out[i].port == byUid[out[i].uid].metricsPort
        invariant forall uid :: Scrapable(byUid, uid) && uid !in todo ==>
          exists i :: 0 <= i < |out| && out[i].uid == uid
        decreases todo
      {
        var uid :| uid in todo;
        var e := byUid[uid];
        ghost var before := out;
        if !(e.metricsPort == 0 || e.remoteIp == "") {
          out := out + [ScrapeTarget(uid, e.remoteIp, e.metricsPort)];
          assert out[|before|].uid == uid;
        }
        forall u | Scrapable(byUid, u) && u !in todo - {uid}
          ensures exists i :: 0 <= i < |out| && out[i].uid == u
        {
          if u != uid {
            var i :| 0 <= i < |before| && before[i].uid == u;
            assert out[i].uid == u;
          }
        }
        todo := todo - {uid};
      }
    }
  }

  // ---------------------------------------------------------------- closing a connection

  /** A close clears every entry of its connection exactly when the connection served at most one agent. */
  lemma CloseIsCompleteIff(conns: Conns, after: Conns, conn: Conn)
    requires Removed(conns, after, conn)
    ensures (forall uid :: !Holds(after, uid, conn)) <==>
            (forall u, v :: Holds(conns, u, conn) && Holds(conns, v, conn) ==> u == v)
  {
    if exists uid :: Holds(conns, uid, conn) {
      var uid :| Holds(conns, uid, conn) && after == conns - {uid};
      forall v
        ensures Holds(after, v, conn) <==> Holds(conns, v, conn) && v != uid
      {
      }
    } else {
      assert forall uid :: !Holds(after, uid, conn);
    }
  }

  /** A late close never touches an entry that another connection has taken over. */
  lemma LateCloseIsHarmless(conns: Conns, after: Conns, conn: Conn, uid: Uid)
    requires Removed(conns, after, conn)
    requires uid in conns && !Holds(conns, uid, conn)
    ensures uid in after && after[uid] == conns[uid]
  {
  }

  /**
   The two registry updates of one message are separate critical sections: if another connection of
   the same agent registers and closes between them, an entry without any connection stays behind.
   */
  lemma TornUpdateStrandsEntry(conns: Conns, uid: Uid, first: Conn, second: Conn, port: nat) returns (after: Conns)
    requires first != second && forall u :: !Holds(conns, u, second)
    ensures var between := Registered(Registered(conns, uid, first), uid, second);
            exists closed :: Removed(between, closed, second) && after == Advertised(closed, uid, port)
    ensures uid in after && after[uid].conn.None?
  {
    var between := Registered(Registered(conns, uid, first), uid, second);
    var closed := between - {uid};
    assert Holds(between, uid, second);
    assert Removed(between, closed, second);
    after := Advertised(closed, uid, port);
  }
}
