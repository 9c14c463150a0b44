/** A plain JavaScript object used as a dictionary and filled in a loop:
    `for (const x of items) if (keep(x)) obj[key(x)] = val(x)`. A later
    assignment to the same key overwrites the earlier one. */
module Records {

  /** The object after the loop has visited every item. */
  function Assign<T, V>(items: seq<T>, keep: T -> bool, key: T -> string, val: T -> V): map<string, V>
  {
    if |items| == 0 then map[]
    else
      var n := |items| - 1;
      var m := Assign(items[..n], keep, key, val);
      if keep(items[n]) then m[key(items[n]) := val(items[n])] else m
  }

  /** The object has a key for every kept item and for nothing else. */
  lemma {:induction false} AssignKeys<T, V>(items: seq<T>, keep: T -> bool, key: T -> string, val: T -> V)
    ensures forall i :: 0 <= i < |items| && keep(items[i]) ==> key(items[i]) in Assign(items, keep, key, val)
    ensures forall k :: k in Assign(items, keep, key, val) ==>
      exists i :: 0 <= i < |items| && keep(items[i]) && key(items[i]) == k
  {
    if |items| > 0 {
      var n := |items| - 1;
      var front := items[..n];
      AssignKeys(front, keep, key, val);
      forall i | 0 <= i < n && keep(items[i]) ensures key(items[i]) in Assign(items, keep, key, val) {
        assert front[i] == items[i];
      }
      forall k | k in Assign(items, keep, key, val)
        ensures exists i :: 0 <= i < |items| && keep(items[i]) && key(items[i]) == k
      {
        if !(keep(items[n]) && k == key(items[n])) {
          assert k in Assign(front, keep, key, val);
          var i :| 0 <= i < n && keep(front[i]) && key(front[i]) == k;
          assert front[i] == items[i];
        }
      }
    }
  }

  /** Last write wins: a key holds the value of the last kept item with that key. */
  lemma {:induction false} AssignLast<T, V>(items: seq<T>, keep: T -> bool, key: T -> string, val: T -> V, i: nat)
    requires i < |items| && keep(items[i])
    requires forall j :: i < j < |items| && keep(items[j]) ==> key(items[j]) != key(items[i])
    ensures key(items[i]) in Assign(items, keep, key, val)
    ensures Assign(items, keep, key, val)[key(items[i])] == val(items[i])
  {
    var n := |items| - 1;
    if i < n {
      var front := items[..n];
      forall j | i < j < n && keep(front[j]) ensures key(front[j]) != key(front[i]) {
        assert front[j] == items[j];
      }
      assert front[i] == items[i];
      AssignLast(front, keep, key, val, i);
    }
  }
}
