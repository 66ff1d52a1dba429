/** Lists of requests, queues or spawns, known by number: what the kernel keeps as list heads. */
module Lists {

  datatype Option<T> = None | Some(value: T)

  ghost predicate NoDup(q: seq<nat>) {
    forall i, j :: 0 <= i < j < |q| ==> q[i] != q[j]
  }

  /** `list_del`. */
  function Remove(q: seq<nat>, id: nat): seq<nat> {
    if q == [] then [] else if q[0] == id then q[1..] else [q[0]] + Remove(q[1..], id)
  }

  lemma {:induction false} RemoveFacts(q: seq<nat>, id: nat)
    requires NoDup(q)
    ensures NoDup(Remove(q, id)) && (forall x :: x in Remove(q, id) <==> x in q && x != id)
    ensures |Remove(q, id)| == if id in q then |q| - 1 else |q|
    decreases |q|
  {
    if q != [] {
      assert q == [q[0]] + q[1..];
      if q[0] != id {
        RemoveFacts(q[1..], id);
        ConsNoDup(q[0], Remove(q[1..], id));
      }
    }
  }

  lemma ConsNoDup(x: nat, q: seq<nat>)
    requires NoDup(q) && x !in q
    ensures NoDup([x] + q)
  {
    var r := [x] + q;
    forall i, j | 0 <= i < j < |r| ensures r[i] != r[j] {
      assert r[j] in q;
    }
  }

  lemma InsertFacts(q: seq<nat>, k: nat, id: nat)
    requires NoDup(q) && k <= |q| && id !in q
    ensures NoDup(q[..k] + [id] + q[k..])
    ensures forall x :: x in q[..k] + [id] + q[k..] <==> x == id || x in q
  {
    assert q == q[..k] + q[k..];
  }

  /** The place `Remove` takes the request from. */
  lemma {:induction false} RemoveAt(q: seq<nat>, id: nat) returns (i: nat)
    requires id in q
    ensures i < |q| && q[i] == id && Remove(q, id) == q[..i] + q[i+1..]
    decreases |q|
  {
    if q[0] == id {
      i := 0;
      assert q[..0] + q[1..] == q[1..];
    } else {
      InTail(q, id);
      var k := RemoveAt(q[1..], id);
      i := k + 1;
      Splice(q, k);
    }
  }

  lemma InTail(q: seq<nat>, id: nat)
    requires id in q && q[0] != id
    ensures id in q[1..]
  {
    assert q == [q[0]] + q[1..];
  }

  lemma Splice(q: seq<nat>, k: nat)
    requires k < |q| - 1
    ensures [q[0]] + (q[1..][..k] + q[1..][k+1..]) == q[..k+1] + q[k+2..]
  {
    assert q[1..][..k] == q[1..k+1] && q[1..][k+1..] == q[k+2..];
    assert q[..k+1] == [q[0]] + q[1..k+1];
  }
}
