/** An account's update log: the window an event covers, and what a log says
    about which objects exist (server/backend/api.go, GetEvent). */
module EventLog {
  import opened Ids
  import opened Updates

  // ---------------------------------------------------------------------
  // Windows

  ghost predicate Increasing(ids: seq<nat>) {
    forall i, j | 0 <= i < j < |ids| :: ids[i] < ids[j]
  }

  function LastUpdateIndex(total: nat, first: nat, max: int): (last: nat)
    ensures first <= total ==> first <= last <= total
  {
    if max <= 0 || first + max > total then total else first + max
  }

  /** Index after the cursor; an unknown cursor starts at the beginning. */
  function FirstIndex(ids: seq<nat>, cursor: nat): (first: nat)
    ensures first <= |ids|
  {
    IndexOf(ids, cursor) + 1
  }

  function LastIndex(ids: seq<nat>, cursor: nat, max: int): (last: nat)
    ensures FirstIndex(ids, cursor) <= last <= |ids|
    ensures ids != [] ==> last > 0
  {
    LastUpdateIndex(|ids|, FirstIndex(ids, cursor), max)
  }

  lemma FirstIndexAt(ids: seq<nat>, p: nat)
    requires Increasing(ids) && p < |ids|
    ensures FirstIndex(ids, ids[p]) == p + 1
  {
    assert ids[p] in ids;
  }

  // ---------------------------------------------------------------------
  // Logs and the objects they are about

  /** `log` agrees with the account's objects: what was deleted is nowhere on
      the server and never mentioned again, nothing is mentioned before its
      creation, and what is mentioned and not the account's any more was deleted. `live` are the account's objects, `present`
      whatever the server stores. */
  ghost predicate Faithful(log: seq<Update>, live: iset<Key>, present: iset<Key>) {
    && live <= present
    && DeletesAreFinal(log) && CreationsAreFirst(log)
    && (forall k :: Deleted(k) in log ==> k !in present)
    && (forall k :: Mentioned(log, k) && k !in live ==> Deleted(k) in log)
  }

  ghost predicate Mentioned(log: seq<Update>, k: Key) {
    exists u :: u in log && Mentions(u, k)
  }

  lemma MentionedConcat(a: seq<Update>, b: seq<Update>, k: Key)
    ensures Mentioned(a + b, k) <==> Mentioned(a, k) || Mentioned(b, k)
  {
    if u :| u in a && Mentions(u, k) { assert u in a + b; }
    if u :| u in b && Mentions(u, k) { assert u in a + b; }
  }

  /** Appending an update that creates, touches or deletes one object. */
  lemma AppendKeepsFaithful(log: seq<Update>, u: Update, live: iset<Key>, present: iset<Key>, live': iset<Key>, present': iset<Key>)
    requires Faithful(log, live, present)
    requires live' <= present'
    requires forall k :: Mentioned(log, k) || k in present ==> (k in present' ==> k in present)
    requires forall k :: Mentioned(log, k) && !Mentions(u, k) ==> (k in live ==> k in live')
    requires u.Created? || u.Updated? ==> u.key in live' && Deleted(u.key) !in log
    requires u.Created? ==> !Mentioned(log, u.key)
    requires u.Deleted? ==> u.key !in present' && Deleted(u.key) !in log
    requires forall k :: Deleted(k) in log ==> k !in present'
    ensures Faithful(log + [u], live', present')
  {
    var log' := log + [u];
    forall i, j | 0 <= i < j < |log'| && log'[i].Deleted? ensures !Mentions(log'[j], log'[i].key) {
      if j == |log| {
        assert log[i] in log;
      }
    }
    forall i, j | 0 <= i < j < |log'| && log'[j].Created? ensures !Mentions(log'[i], log'[j].key) {
      if j == |log| {
        assert log[i] in log;
      }
    }
    forall k | Mentioned(log', k) && k !in live' ensures Deleted(k) in log' {
      MentionedConcat(log, [u], k);
      if Mentions(u, k) {
        assert u == Deleted(k);
        assert log'[|log|] == u;
      } else {
        assert Deleted(k) in log;
      }
    }
  }
}
