/** Taking keys out of a finite set, as loops over a map do. */
module Sets {

  lemma EmptyOrNot<T>(s: set<T>)
    ensures s == {} || exists x :: x in s
  {
    if !exists x :: x in s {
      assert s == {};
    }
  }

  lemma Pick<T>(s: set<T>) returns (x: T)
    requires s != {}
    ensures x in s && |s - {x}| == |s| - 1
  {
    EmptyOrNot(s);
    x :| x in s;
  }

  /** Taking one key fewer out of a map leaves that key's entry in. */
  lemma OneKeyFewer<K, V>(m: map<K, V>, rest: set<K>, key: K)
    requires key in rest && rest <= m.Keys
    ensures m - (rest - {key}) == (m - rest)[key := m[key]]
  {
    assert (m - (rest - {key})).Keys == (m - rest)[key := m[key]].Keys;
  }

  lemma AssignLast<K, V>(m: map<K, V>, more: map<K, V>, key: K, value: V)
    ensures (m + more)[key := value] == m + more[key := value]
  {
    assert (m + more)[key := value].Keys == (m + more[key := value]).Keys;
  }
}
