/** `BTreeMap<String, String>`: a strictly ascending list of entries. */
module OrderedMap {
  import opened Wrappers

  type Entry = (string, string)

  /** The order of Rust strings: by UTF-8 bytes, which for scalar values is by code points. */
  predicate Less(a: string, b: string) {
    b != "" && (a == "" || a[0] < b[0] || (a[0] == b[0] && Less(a[1..], b[1..])))
  }

  lemma {:induction false} LessIrreflexive(a: string)
    ensures !Less(a, a)
  {
    if a != "" {
      LessIrreflexive(a[1..]);
    }
  }

  lemma {:induction false} LessTransitive(a: string, b: string, c: string)
    requires Less(a, b) && Less(b, c)
    ensures Less(a, c)
  {
    if a != "" && a[0] == b[0] && b[0] == c[0] {
      LessTransitive(a[1..], b[1..], c[1..]);
    }
  }

  lemma {:induction false} LessTotal(a: string, b: string)
    ensures a == b || Less(a, b) || Less(b, a)
  {
    if a != "" && b != "" && a[0] == b[0] {
      LessTotal(a[1..], b[1..]);
      assert a == [a[0]] + a[1..] && b == [b[0]] + b[1..];
    }
  }

  /** Strings that agree up to a place are ordered by what stands there. */
  lemma {:induction false} LessAt(a: string, b: string, k: nat)
    requires k < |a| && k < |b| && a[..k] == b[..k] && a[k] < b[k]
    ensures Less(a, b)
  {
    if k > 0 {
      assert a[0] == a[..k][0] == b[..k][0] == b[0];
      assert a[1..][..k - 1] == a[..k][1..] == b[..k][1..] == b[1..][..k - 1];
      LessAt(a[1..], b[1..], k - 1);
    }
  }

  lemma LessAsymmetric(a: string, b: string)
    requires Less(a, b)
    ensures !Less(b, a)
  {
    hide Less;
    LessIrreflexive(a);
    if Less(b, a) {
      LessTransitive(a, b, a);
    }
  }

  ghost predicate Sorted(es: seq<Entry>) {
    forall i, j :: 0 <= i < j < |es| ==> Less(es[i].0, es[j].0)
  }

  function Get(es: seq<Entry>, key: string): Option<string> {
    if es == [] then None else if es[0].0 == key then Some(es[0].1) else Get(es[1..], key)
  }

  function Insert(es: seq<Entry>, key: string, value: string): seq<Entry> {
    if es == [] then [(key, value)]
    else if es[0].0 == key then [(key, value)] + es[1..]
    else if Less(key, es[0].0) then [(key, value)] + es
    else [es[0]] + Insert(es[1..], key, value)
  }

  lemma {:induction false} GetInsert(es: seq<Entry>, key: string, value: string, k: string)
    ensures Get(Insert(es, key, value), k) == if k == key then Some(value) else Get(es, k)
  {
    if es != [] && es[0].0 != key && !Less(key, es[0].0) {
      GetInsert(es[1..], key, value, k);
    }
  }

  lemma {:induction false} GetAt(es: seq<Entry>, k: string) returns (i: nat)
    requires Get(es, k).Some?
    ensures i < |es| && es[i] == (k, Get(es, k).value)
  {
    if es[0].0 == k {
      i := 0;
    } else {
      var j := GetAt(es[1..], k);
      i := j + 1;
    }
  }

  lemma {:induction false} InsertEntries(es: seq<Entry>, key: string, value: string)
    ensures forall i :: 0 <= i < |Insert(es, key, value)| ==>
              Insert(es, key, value)[i] == (key, value) || Insert(es, key, value)[i] in es
  {
    if es != [] {
      InsertEntries(es[1..], key, value);
    }
  }

  lemma {:induction false} InsertSorted(es: seq<Entry>, key: string, value: string)
    requires Sorted(es)
    ensures Sorted(Insert(es, key, value))
  {
    if es != [] {
      if es[0].0 == key {
      } else if Less(key, es[0].0) {
        forall j | 0 <= j < |es| ensures Less(key, es[j].0) {
          if j > 0 { LessTransitive(key, es[0].0, es[j].0); }
        }
      } else {
        var rest := Insert(es[1..], key, value);
        InsertSorted(es[1..], key, value);
        InsertEntries(es[1..], key, value);
        LessTotal(key, es[0].0);
        forall j | 0 <= j < |rest| ensures Less(es[0].0, rest[j].0) {
          if rest[j] != (key, value) {
            var i :| 0 <= i < |es[1..]| && es[1..][i] == rest[j];
          }
        }
      }
    }
  }

  /** Inserting a key above all others appends it. */
  lemma {:induction false} InsertLast(es: seq<Entry>, key: string, value: string)
    requires forall i :: 0 <= i < |es| ==> Less(es[i].0, key)
    ensures Insert(es, key, value) == es + [(key, value)]
  {
    if es != [] {
      InsertLast(es[1..], key, value);
      LessIrreflexive(key);
      if Less(key, es[0].0) {
        LessTransitive(key, es[0].0, key);
      }
      assert es == [es[0]] + es[1..];
    }
  }
}
