/**
 * The key/value store the older generation keeps its cases in, reduced to
 * the commands it uses: sets of strings (SADD, SREM, SMEMBERS) and plain
 * strings (GET, SET, DEL).  A set is kept in the order SMEMBERS hands it
 * back.  Any command on a key in `down` fails.
 */
module Store {
  import opened Wrappers

  datatype StoreErr = Unavailable(key: string)

  datatype Store = Store(sets: map<string, seq<string>>, strs: map<string, string>, down: set<string>)

  const Empty := Store(map[], map[], {})

  /** SMEMBERS: the members of a set, none for a missing key. */
  function Members(st: Store, key: string): (r: Result<seq<string>, StoreErr>)
    ensures r.Err? <==> key in st.down
    ensures r.Ok? ==> r.value == (if key in st.sets then st.sets[key] else [])
  {
    if key in st.down then Err(Unavailable(key))
    else if key in st.sets then Ok(st.sets[key]) else Ok([])
  }

  /** SADD of one member. */
  function Add(st: Store, key: string, v: string): (r: Result<Store, StoreErr>)
    ensures r.Err? <==> key in st.down
    ensures r.Ok? ==> key in r.value.sets && v in r.value.sets[key]
    ensures r.Ok? ==> r.value.strs == st.strs && r.value.down == st.down
    ensures r.Ok? ==> forall k :: k in st.sets && k != key ==> k in r.value.sets && r.value.sets[k] == st.sets[k]
    ensures r.Ok? ==> forall k :: k in r.value.sets ==> k in st.sets || k == key
    ensures r.Ok? && key in st.sets ==> forall m :: m in st.sets[key] ==> m in r.value.sets[key]
  {
    if key in st.down then Err(Unavailable(key))
    else
      var members := if key in st.sets then st.sets[key] else [];
      Ok(st.(sets := st.sets[key := if v in members then members else members + [v]]))
  }

  /** Every occurrence of `v` taken out of `s`. */
  function Without(s: seq<string>, v: string): (r: seq<string>)
    ensures forall m :: m in r <==> m in s && m != v
  {
    if s == [] then [] else (if s[0] == v then [] else [s[0]]) + Without(s[1..], v)
  }

  /** SREM of one member. */
  function Remove(st: Store, key: string, v: string): (r: Result<Store, StoreErr>)
    ensures r.Err? <==> key in st.down
    ensures r.Ok? ==> r.value.strs == st.strs && r.value.down == st.down
    ensures r.Ok? ==> key !in r.value.sets || v !in r.value.sets[key]
    ensures r.Ok? ==> forall k :: k != key ==> (k in r.value.sets <==> k in st.sets)
    ensures r.Ok? ==> forall k :: k != key && k in st.sets ==> r.value.sets[k] == st.sets[k]
    ensures r.Ok? && key in r.value.sets ==> key in st.sets && forall m :: m in r.value.sets[key] ==> m in st.sets[key]
  {
    if key in st.down then Err(Unavailable(key))
    else if key in st.sets then Ok(st.(sets := st.sets[key := Without(st.sets[key], v)]))
    else Ok(st)
  }

  /** GET: a missing key reads as "" without an error. */
  function Get(st: Store, key: string): (r: Result<string, StoreErr>)
    ensures r.Err? <==> key in st.down
    ensures r.Ok? ==> r.value == (if key in st.strs then st.strs[key] else "")
  {
    if key in st.down then Err(Unavailable(key))
    else if key in st.strs then Ok(st.strs[key]) else Ok("")
  }

  /** SET. */
  function Put(st: Store, key: string, v: string): (r: Result<Store, StoreErr>)
    ensures r.Err? <==> key in st.down
    ensures r.Ok? ==> r.value.sets == st.sets && r.value.down == st.down
    ensures r.Ok? ==> key in r.value.strs && r.value.strs[key] == v
    ensures r.Ok? ==> forall k :: k != key ==> (k in r.value.strs <==> k in st.strs)
    ensures r.Ok? ==> forall k :: k != key && k in st.strs ==> r.value.strs[k] == st.strs[k]
  {
    if key in st.down then Err(Unavailable(key)) else Ok(st.(strs := st.strs[key := v]))
  }

  /** DEL of one key, whichever kind it holds. */
  function Delete(st: Store, key: string): (r: Result<Store, StoreErr>)
    ensures r.Err? <==> key in st.down
    ensures r.Ok? ==> key !in r.value.strs && key !in r.value.sets && r.value.down == st.down
    ensures r.Ok? ==> forall k :: k != key ==> (k in r.value.strs <==> k in st.strs) && (k in r.value.sets <==> k in st.sets)
    ensures r.Ok? ==> forall k :: k != key && k in st.strs ==> r.value.strs[k] == st.strs[k]
    ensures r.Ok? ==> forall k :: k != key && k in st.sets ==> r.value.sets[k] == st.sets[k]
  {
    if key in st.down then Err(Unavailable(key)) else Ok(st.(strs := st.strs - {key}, sets := st.sets - {key}))
  }

  /** After DEL, GET reads "" again. */
  lemma GetAfterDelete(st: Store, key: string)
    requires key !in st.down
    ensures Delete(st, key).Ok? && Get(Delete(st, key).value, key) == Ok("")
  {
  }

  /** SADD then SREM of a member leaves it out of the set. */
  lemma RemoveAfterAdd(st: Store, key: string, v: string)
    requires key !in st.down
    ensures var st1 := Add(st, key, v).value;
      var st2 := Remove(st1, key, v).value;
      Members(st2, key).Ok? && v !in Members(st2, key).value
  {
  }
}
