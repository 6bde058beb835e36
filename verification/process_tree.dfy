/**
 * The memory of a process and its descendants, from one listing of the process table. Parents may
 * be missing or form cycles.
 */
module ProcessTree {
  import opened Options

  const WORD := 0x1_0000_0000_0000_0000

  type Pid = nat
  type Uint64 = x: int | 0 <= x < WORD
  datatype Process = Process(parent: Pid, rss: Uint64, measured: bool)

  type Table = map<Pid, Process>

  /** Following parents `steps` times from `pid`, through listed processes, ends at the root. */
  predicate DescendsIn(table: Table, root: Pid, pid: Pid, steps: nat)
    decreases steps
  {
    pid in table && if steps == 0 then pid == root else DescendsIn(table, root, table[pid].parent, steps - 1)
  }

  ghost predicate Descends(table: Table, root: Pid, pid: Pid) {
    exists steps: nat :: DescendsIn(table, root, pid, steps)
  }

  /** The set is closed under listed children. */
  ghost predicate Closed(table: Table, included: set<Pid>) {
    forall pid :: pid in table && table[pid].parent in included ==> pid in included
  }

  lemma {:induction false} ClosedHoldsDescendants(table: Table, root: Pid, included: set<Pid>, pid: Pid, steps: nat)
    requires root in included && Closed(table, included) && DescendsIn(table, root, pid, steps)
    ensures pid in included
    decreases steps
  {
    if steps > 0 {
      ClosedHoldsDescendants(table, root, included, table[pid].parent, steps - 1);
    }
  }

  lemma ChildDescends(table: Table, root: Pid, pid: Pid)
    requires pid in table && Descends(table, root, table[pid].parent)
    ensures Descends(table, root, pid)
  {
    var steps: nat :| DescendsIn(table, root, table[pid].parent, steps);
    assert DescendsIn(table, root, pid, steps + 1);
  }

  /** The order in which the table is walked within a pass does not matter. */
  method Pass(table: Table, root: Pid, included: set<Pid>) returns (changed: bool, next: set<Pid>)
    requires included <= table.Keys && forall pid :: pid in included ==> Descends(table, root, pid)
    ensures included <= next <= table.Keys && (changed <==> next != included)
    ensures forall pid :: pid in next ==> Descends(table, root, pid)
    ensures !changed ==> Closed(table, included)
  {
    changed, next := false, included;
    var pending := table.Keys;
    while pending != {}
      invariant pending <= table.Keys && included <= next <= table.Keys && (changed <==> next != included)
      invariant forall pid :: pid in next ==> Descends(table, root, pid)
      invariant !changed ==> forall pid :: pid in table.Keys - pending && table[pid].parent in included ==>
                  pid in included
      decreases |pending|
    {
      var pid :| pid in pending;
      pending := pending - {pid};
      if pid !in next && table[pid].parent in next {
        ChildDescends(table, root, pid);
        next := next + {pid};
        changed := true;
      }
    }
  }

  method Descendants(table: Table, root: Pid) returns (included: set<Pid>)
    requires root in table
    ensures forall pid :: pid in included <==> Descends(table, root, pid)
  {
    included := {root};
    assert DescendsIn(table, root, root, 0);
    var changed := true;
    while changed
      invariant root in included && included <= table.Keys
      invariant forall pid :: pid in included ==> Descends(table, root, pid)
      invariant !changed ==> Closed(table, included)
      decreases |table.Keys| - |included|, changed
    {
      ghost var before := included;
      changed, included := Pass(table, root, included);
      if changed {
        assert included == before + (included - before);
        assert |before| < |included| by {
          ProperSubsetIsSmaller(before, included);
        }
        SubsetIsSmaller(included, table.Keys);
      }
    }
    forall pid | Descends(table, root, pid) ensures pid in included {
      var steps: nat :| DescendsIn(table, root, pid, steps);
      ClosedHoldsDescendants(table, root, included, pid, steps);
    }
  }

  lemma ProperSubsetIsSmaller(a: set<Pid>, b: set<Pid>)
    requires a <= b && a != b
    ensures |a| < |b|
  {
    assert b == a + (b - a);
    assert |b| == |a| + |b - a|;
  }

  lemma SubsetIsSmaller(a: set<Pid>, b: set<Pid>)
    requires a <= b
    ensures |a| <= |b|
  {
    if a != b {
      ProperSubsetIsSmaller(a, b);
    }
  }

  ghost function SumOf(table: Table, pids: set<Pid>): nat
    requires pids <= table.Keys
    decreases |pids|
  {
    if pids == {} then 0
    else
      var pid :| pid in pids;
      table[pid].rss + SumOf(table, pids - {pid})
  }

  lemma {:induction false} SumWithout(table: Table, pids: set<Pid>, pid: Pid)
    requires pids <= table.Keys && pid in pids
    ensures SumOf(table, pids) == table[pid].rss + SumOf(table, pids - {pid})
    decreases |pids|
  {
    var first :| first in pids && SumOf(table, pids) == table[first].rss + SumOf(table, pids - {first});
    if first != pid {
      SumWithout(table, pids - {first}, pid);
      SumWithout(table, pids - {pid}, first);
      assert pids - {first} - {pid} == pids - {pid} - {first};
    }
  }

  /** The sum over exactly the descendants, modulo the machine word, or nothing when one of them has no measure. */
  method ProcessTreeRss(table: Table, root: Pid) returns (total: Option<Uint64>)
    ensures total.Some? <==>
              root in table && forall pid :: Descends(table, root, pid) ==> table[pid].measured && table[pid].rss != 0
    ensures total.Some? ==>
              exists descendants: set<Pid> ::
                && descendants <= table.Keys && (forall pid :: pid in descendants <==> Descends(table, root, pid))
                && total.value == SumOf(table, descendants) % WORD
  {
    if root !in table {
      return None;
    }
    var included := Descendants(table, root);
    assert forall pid :: pid in included ==> pid in table;
    var sum: Uint64 := 0;
    var pending := included;
    while pending != {}
      invariant pending <= included <= table.Keys
      invariant forall pid :: pid in included - pending ==> table[pid].measured && table[pid].rss != 0
      invariant (sum + SumOf(table, pending)) % WORD == SumOf(table, included) % WORD
      decreases |pending|
    {
      var pid :| pid in pending;
      SumWithout(table, pending, pid);
      pending := pending - {pid};
      if !table[pid].measured || table[pid].rss == 0 {
        assert Descends(table, root, pid);
        return None;
      }
      WrapOnce(sum, table[pid].rss, SumOf(table, pending));
      sum := (sum + table[pid].rss) % WORD;
    }
    return Some(sum);
  }

  lemma WrapOnce(a: nat, b: nat, rest: nat)
    ensures ((a + b) % WORD + rest) % WORD == (a + (b + rest)) % WORD
  {
    var q := (a + b) / WORD;
    assert a + b == q * WORD + (a + b) % WORD;
    SameRemainder((a + b) % WORD + rest, q);
  }

  lemma SameRemainder(n: nat, q: nat)
    ensures (n + q * WORD) % WORD == n % WORD
  {
  }
}
