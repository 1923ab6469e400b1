/** The order in which the environment is exported (`sortedEnvKeys` in internal/multipass/system.go). */
module EnvKeys {

  /** Go's order on strings: by the first difference, a beginning before what continues it. */
  predicate Before(a: string, b: string) {
    b != "" && (a == "" || a[0] < b[0] || (a[0] == b[0] && Before(a[1..], b[1..])))
  }

  lemma {:induction false} BeforeIsTotal(a: string, b: string)
    ensures a == b || Before(a, b) || Before(b, a)
  {
    if a != "" && b != "" && a[0] == b[0] {
      BeforeIsTotal(a[1..], b[1..]);
      assert a == [a[0]] + a[1..] && b == [b[0]] + b[1..];
    }
  }

  lemma {:induction false} BeforeIsStrict(a: string, b: string)
    ensures Before(a, b) ==> !Before(b, a) && a != b
  {
    if a != "" && b != "" && a[0] == b[0] {
      BeforeIsStrict(a[1..], b[1..]);
    }
  }

  lemma {:induction false} BeforeIsTransitive(a: string, b: string, c: string)
    requires Before(a, b) && Before(b, c)
    ensures Before(a, c)
  {
    if a != "" && a[0] == b[0] == c[0] {
      BeforeIsTransitive(a[1..], b[1..], c[1..]);
    }
  }

  predicate Sorted(keys: seq<string>) {
    forall i, j :: 0 <= i < j < |keys| ==> Before(keys[i], keys[j])
  }

  function Elements(keys: seq<string>): set<string> {
    set k | k in keys
  }

  lemma NoElements(keys: seq<string>)
    ensures Elements(keys) == {} <==> keys == []
  {
    if keys != [] {
      assert keys[0] in Elements(keys);
    }
  }

  /** There is only one sorted list of a set. */
  lemma {:induction false} SortedIsUnique(a: seq<string>, b: seq<string>)
    requires Sorted(a) && Sorted(b) && Elements(a) == Elements(b)
    ensures a == b
    decreases |a|
  {
    NoElements(a);
    NoElements(b);
    if a != [] {
      FirstIsLeast(a, b);
      TailElements(a);
      TailElements(b);
      SortedIsUnique(a[1..], b[1..]);
      assert a == [a[0]] + a[1..] && b == [b[0]] + b[1..];
    }
  }

  lemma FirstIsLeast(a: seq<string>, b: seq<string>)
    requires Sorted(a) && Sorted(b) && Elements(a) == Elements(b) && a != [] && b != []
    ensures a[0] == b[0]
  {
    assert a[0] in Elements(b) && b[0] in Elements(a);
    var i :| 0 <= i < |b| && b[i] == a[0];
    var j :| 0 <= j < |a| && a[j] == b[0];
    BeforeIsStrict(a[0], b[0]);
  }

  lemma TailElements(a: seq<string>)
    requires Sorted(a) && a != []
    ensures Sorted(a[1..]) && Elements(a[1..]) == Elements(a) - {a[0]}
  {
    forall k | k in a[1..] ensures k != a[0] {
      var i :| 0 <= i < |a| - 1 && a[1..][i] == k;
      BeforeIsStrict(a[0], a[i + 1]);
    }
    assert a == [a[0]] + a[1..];
  }

  /** Room for a key among smaller and larger ones. */
  lemma Inserted(keys: seq<string>, j: nat, key: string)
    requires Sorted(keys) && j <= |keys|
    requires forall i :: 0 <= i < j ==> Before(keys[i], key)
    requires j < |keys| ==> Before(key, keys[j])
    ensures Sorted(keys[..j] + [key] + keys[j..]) && Elements(keys[..j] + [key] + keys[j..]) == Elements(keys) + {key}
  {
    var more := keys[..j] + [key] + keys[j..];
    forall i | j <= i < |keys| ensures Before(key, keys[i]) {
      if i > j {
        BeforeIsTransitive(key, keys[j], keys[i]);
      }
    }
    assert keys == keys[..j] + keys[j..];
  }

  method Insert(keys: seq<string>, key: string) returns (more: seq<string>)
    requires Sorted(keys) && key !in keys
    ensures Sorted(more) && Elements(more) == Elements(keys) + {key}
  {
    var j := 0;
    while j < |keys| && Before(keys[j], key)
      invariant 0 <= j <= |keys| && forall i :: 0 <= i < j ==> Before(keys[i], key)
    {
      j := j + 1;
    }
    if j < |keys| {
      BeforeIsTotal(keys[j], key);
    }
    Inserted(keys, j, key);
    more := keys[..j] + [key] + keys[j..];
  }

  method SortedEnvKeys(env: map<string, string>) returns (keys: seq<string>)
    ensures Sorted(keys) && Elements(keys) == env.Keys
  {
    keys := [];
    var todo := env.Keys;
    while todo != {}
      invariant todo <= env.Keys && Sorted(keys) && Elements(keys) == env.Keys - todo
    {
      var key :| key in todo;
      assert key !in Elements(keys);
      keys := Insert(keys, key);
      todo := todo - {key};
    }
  }
}
