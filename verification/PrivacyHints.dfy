/** The codec of privacy hints: six flags, written as a list of names. */
module PrivacyHints {
  import opened Common

  const CALLDATA := "calldata"
  const CONTRACT_ADDRESS := "contract_address"
  const LOGS := "logs"
  const FUNCTION_SELECTOR := "function_selector"
  const HASH := "hash"
  const TX_HASH := "tx_hash"

  /** The names, in the order in which they are written. */
  const NAMES: seq<string> := [CALLDATA, CONTRACT_ADDRESS, LOGS, FUNCTION_SELECTOR, HASH, TX_HASH]

  datatype PrivacyHint = PrivacyHint(
    calldata: bool,
    contractAddress: bool,
    logs: bool,
    functionSelector: bool,
    hash: bool,
    txHash: bool)
  {
    /** Is the hint of this name given? */
    predicate Has(name: string) {
      if name == CALLDATA then calldata
      else if name == CONTRACT_ADDRESS then contractAddress
      else if name == LOGS then logs
      else if name == FUNCTION_SELECTOR then functionSelector
      else if name == HASH then hash
      else name == TX_HASH && txHash
    }
  }

  const NO_HINTS := PrivacyHint(false, false, false, false, false, false)

  lemma NamesDiffer()
    ensures forall i, j :: 0 <= i < j < |NAMES| ==> NAMES[i] != NAMES[j]
  {
  }

  lemma HasEach(h: PrivacyHint)
    ensures h.Has(CALLDATA) == h.calldata
    ensures h.Has(CONTRACT_ADDRESS) == h.contractAddress
    ensures h.Has(LOGS) == h.logs
    ensures h.Has(FUNCTION_SELECTOR) == h.functionSelector
    ensures h.Has(HASH) == h.hash
    ensures h.Has(TX_HASH) == h.txHash
  {
  }

  /** The entries of `names` that satisfy `keep`, in order. */
  function Keep(names: seq<string>, keep: string -> bool): seq<string> {
    if names == [] then []
    else
      var n := |names| - 1;
      Keep(names[..n], keep) + (if keep(names[n]) then [names[n]] else [])
  }

  function Given(h: PrivacyHint): string -> bool { (name: string) => h.Has(name) }

  function Among(names: seq<string>): string -> bool { (name: string) => name in names }

  /** The names of the given hints in canonical order. */
  function Written(h: PrivacyHint): seq<string> { Keep(NAMES, Given(h)) }

  predicate AllValid(names: seq<string>) {
    forall name :: name in names ==> name in NAMES
  }

  /** What a list of names denotes: an error if one is unknown, else the hints it names. */
  function Parsed(names: seq<string>): Result<PrivacyHint, string> {
    if AllValid(names)
    then Ok(PrivacyHint(CALLDATA in names, CONTRACT_ADDRESS in names, LOGS in names,
                        FUNCTION_SELECTOR in names, HASH in names, TX_HASH in names))
    else Err("invalid privacy hint")
  }

  lemma {:induction false} KeepMembers(names: seq<string>, keep: string -> bool)
    ensures forall name :: name in Keep(names, keep) <==> name in names && keep(name)
  {
    if names != [] {
      var n := |names| - 1;
      KeepMembers(names[..n], keep);
      assert names == names[..n] + [names[n]];
    }
  }

  lemma {:induction false} KeepEqual(names: seq<string>, keep: string -> bool, keep': string -> bool)
    requires forall name :: name in names ==> keep(name) == keep'(name)
    ensures Keep(names, keep) == Keep(names, keep')
  {
    if names != [] {
      KeepEqual(names[..|names| - 1], keep, keep');
    }
  }

  /** Reading back what was written gives the same hints. */
  lemma RoundTrip(h: PrivacyHint)
    ensures Parsed(Written(h)) == Ok(h)
  {
    HasEach(h);
    KeepMembers(NAMES, Given(h));
    assert CALLDATA == NAMES[0] && CONTRACT_ADDRESS == NAMES[1] && LOGS == NAMES[2];
    assert FUNCTION_SELECTOR == NAMES[3] && HASH == NAMES[4] && TX_HASH == NAMES[5];
  }

  // ---- The names on the wire ----

  /** Each name alone denotes the one hint it is the name of. */
  lemma ReadsEachName()
    ensures Parsed(["calldata"]) == Ok(PrivacyHint(true, false, false, false, false, false))
    ensures Parsed(["contract_address"]) == Ok(PrivacyHint(false, true, false, false, false, false))
    ensures Parsed(["logs"]) == Ok(PrivacyHint(false, false, true, false, false, false))
    ensures Parsed(["function_selector"]) == Ok(PrivacyHint(false, false, false, true, false, false))
    ensures Parsed(["hash"]) == Ok(PrivacyHint(false, false, false, false, true, false))
    ensures Parsed(["tx_hash"]) == Ok(PrivacyHint(false, false, false, false, false, true))
  {
    assert "calldata" == NAMES[0] && "contract_address" == NAMES[1] && "logs" == NAMES[2];
    assert "function_selector" == NAMES[3] && "hash" == NAMES[4] && "tx_hash" == NAMES[5];
  }

  /** The written names are of the six, each there exactly when its hint is given. */
  lemma WritesEachName(h: PrivacyHint)
    ensures "calldata" in Written(h) <==> h.calldata
    ensures "contract_address" in Written(h) <==> h.contractAddress
    ensures "logs" in Written(h) <==> h.logs
    ensures "function_selector" in Written(h) <==> h.functionSelector
    ensures "hash" in Written(h) <==> h.hash
    ensures "tx_hash" in Written(h) <==> h.txHash
    ensures forall name :: name in Written(h) ==> OnWire(name)
  {
    HasEach(h);
    KeepMembers(NAMES, Given(h));
    assert "calldata" == NAMES[0] && "contract_address" == NAMES[1] && "logs" == NAMES[2];
    assert "function_selector" == NAMES[3] && "hash" == NAMES[4] && "tx_hash" == NAMES[5];
  }

  predicate OnWire(name: string) {
    || name == "calldata" || name == "contract_address" || name == "logs"
    || name == "function_selector" || name == "hash" || name == "tx_hash"
  }

  /** The order of the names, seen on the list of all hints. */
  lemma WritesInOrder()
    ensures Written(PrivacyHint(true, true, true, true, true, true))
         == ["calldata", "contract_address", "logs", "function_selector", "hash", "tx_hash"]
  {
    UpToSteps(PrivacyHint(true, true, true, true, true, true));
  }

  /** What a list denotes depends only on the set of its names. */
  lemma OnlyTheSetMatters(names: seq<string>, names': seq<string>)
    requires forall name :: name in names <==> name in names'
    ensures Parsed(names) == Parsed(names')
  {
    assert AllValid(names) <==> AllValid(names');
  }

  lemma ParsedHas(names: seq<string>)
    requires AllValid(names)
    ensures forall name :: name in NAMES ==> (Parsed(names).value.Has(name) <==> name in names)
  {
    HasEach(Parsed(names).value);
    forall name | name in NAMES
      ensures Parsed(names).value.Has(name) <==> name in names
    {
      var i :| 0 <= i < |NAMES| && NAMES[i] == name;
      assert i == 0 || i == 1 || i == 2 || i == 3 || i == 4 || i == 5;
    }
  }

  /** Writing what was read gives the canonical list: the names of the input
      in canonical order, each once. */
  lemma Canonical(names: seq<string>)
    requires AllValid(names)
    ensures Written(Parsed(names).value) == Keep(NAMES, Among(names))
    ensures forall name :: name in Written(Parsed(names).value) <==> name in names
    ensures var w := Written(Parsed(names).value); forall i, j :: 0 <= i < j < |w| ==> w[i] != w[j]
  {
    ParsedHas(names);
    var h := Parsed(names).value;
    KeepEqual(NAMES, Given(h), Among(names));
    KeepMembers(NAMES, Among(names));
    NamesDiffer();
    KeepDistinct(NAMES, Given(h));
  }

  lemma {:induction false} KeepDistinct(names: seq<string>, keep: string -> bool)
    requires forall i, j :: 0 <= i < j < |names| ==> names[i] != names[j]
    ensures forall i, j :: 0 <= i < j < |Keep(names, keep)| ==> Keep(names, keep)[i] != Keep(names, keep)[j]
  {
    if names != [] {
      var n := |names| - 1;
      KeepDistinct(names[..n], keep);
      KeepMembers(names[..n], keep);
      var front := Keep(names[..n], keep);
      assert names[n] !in names[..n];
      assert forall i :: 0 <= i < |front| ==> front[i] in names[..n];
      assert forall i :: 0 <= i < |front| ==> Keep(names, keep)[i] == front[i];
    }
  }

  /** The part of the canonical list that comes from the first `k` names. */
  function UpTo(h: PrivacyHint, k: nat): seq<string>
    requires k <= |NAMES|
  {
    Keep(NAMES[..k], Given(h))
  }

  lemma UpToNext(h: PrivacyHint, k: nat)
    requires k < |NAMES|
    ensures UpTo(h, k + 1) == UpTo(h, k) + (if h.Has(NAMES[k]) then [NAMES[k]] else [])
  {
    assert NAMES[..k + 1][..k] == NAMES[..k];
  }

  lemma UpToSteps(h: PrivacyHint)
    ensures UpTo(h, 0) == []
    ensures UpTo(h, 1) == UpTo(h, 0) + (if h.calldata then [CALLDATA] else [])
    ensures UpTo(h, 2) == UpTo(h, 1) + (if h.contractAddress then [CONTRACT_ADDRESS] else [])
    ensures UpTo(h, 3) == UpTo(h, 2) + (if h.logs then [LOGS] else [])
    ensures UpTo(h, 4) == UpTo(h, 3) + (if h.functionSelector then [FUNCTION_SELECTOR] else [])
    ensures UpTo(h, 5) == UpTo(h, 4) + (if h.hash then [HASH] else [])
    ensures UpTo(h, 6) == UpTo(h, 5) + (if h.txHash then [TX_HASH] else [])
    ensures UpTo(h, 6) == Written(h)
  {
    UpToNext(h, 0);
    UpToNext(h, 1);
    UpToNext(h, 2);
    UpToNext(h, 3);
    UpToNext(h, 4);
    UpToNext(h, 5);
    HasEach(h);
    assert NAMES[..6] == NAMES;
  }

  /** The number of hints given. */
  method NumHints(h: PrivacyHint) returns (numHints: nat)
    ensures numHints == |Written(h)|
  {
    hide *;
    UpToSteps(h);
    numHints := 0;
    if h.calldata { numHints := numHints + 1; }
    if h.contractAddress { numHints := numHints + 1; }
    if h.logs { numHints := numHints + 1; }
    if h.functionSelector { numHints := numHints + 1; }
    if h.hash { numHints := numHints + 1; }
    if h.txHash { numHints := numHints + 1; }
  }

  /** Writes the hints; `announced` is the length given to the serializer beforehand. */
  method Serialize(h: PrivacyHint) returns (announced: nat, names: seq<string>)
    ensures names == Written(h)
    ensures announced == |names|
  {
    hide *;
    announced := NumHints(h);
    UpToSteps(h);
    names := [];
    if h.calldata { names := names + [CALLDATA]; }
    if h.contractAddress { names := names + [CONTRACT_ADDRESS]; }
    if h.logs { names := names + [LOGS]; }
    if h.functionSelector { names := names + [FUNCTION_SELECTOR]; }
    if h.hash { names := names + [HASH]; }
    if h.txHash { names := names + [TX_HASH]; }
  }

  /** The hints with one more given. */
  function Giving(h: PrivacyHint, name: string): PrivacyHint {
    PrivacyHint(h.calldata || name == CALLDATA,
                h.contractAddress || name == CONTRACT_ADDRESS,
                h.logs || name == LOGS,
                h.functionSelector || name == FUNCTION_SELECTOR,
                h.hash || name == HASH,
                h.txHash || name == TX_HASH)
  }

  lemma ParsedAppend(names: seq<string>, name: string)
    requires AllValid(names)
    ensures Parsed(names + [name])
         == if name in NAMES then Ok(Giving(Parsed(names).value, name)) else Err("invalid privacy hint")
  {
    assert name in names + [name];
    assert AllValid(names + [name]) <==> name in NAMES;
  }

  lemma ParsedStop(names: seq<string>, i: nat)
    requires i < |names| && names[i] !in NAMES
    ensures Parsed(names) == Err("invalid privacy hint")
  {
    assert names[i] in names;
  }

  /** Setting the flag a name stands for. */
  method SetFlag(h: PrivacyHint, hint: string) returns (r: Result<PrivacyHint, string>)
    ensures r == if hint in NAMES then Ok(Giving(h, hint)) else Err("invalid privacy hint")
    ensures hint == "calldata" ==> r == Ok(h.(calldata := true))
    ensures hint == "contract_address" ==> r == Ok(h.(contractAddress := true))
    ensures hint == "logs" ==> r == Ok(h.(logs := true))
    ensures hint == "function_selector" ==> r == Ok(h.(functionSelector := true))
    ensures hint == "hash" ==> r == Ok(h.(hash := true))
    ensures hint == "tx_hash" ==> r == Ok(h.(txHash := true))
    ensures r == Err("invalid privacy hint") <==> !OnWire(hint)
  {
    NamesDiffer();
    if hint == CALLDATA {
      r := Ok(h.(calldata := true));
    } else if hint == CONTRACT_ADDRESS {
      r := Ok(h.(contractAddress := true));
    } else if hint == LOGS {
      r := Ok(h.(logs := true));
    } else if hint == FUNCTION_SELECTOR {
      r := Ok(h.(functionSelector := true));
    } else if hint == HASH {
      r := Ok(h.(hash := true));
    } else if hint == TX_HASH {
      r := Ok(h.(txHash := true));
    } else {
      r := Err("invalid privacy hint");
    }
  }

  /** Reads a list of names: succeeds exactly when every name is known. */
  method Deserialize(names: seq<string>) returns (r: Result<PrivacyHint, string>)
    ensures r == Parsed(names)
    ensures r == Err("invalid privacy hint") <==> exists name :: name in names && !OnWire(name)
    ensures r.Ok? ==>
              && (r.value.calldata <==> "calldata" in names)
              && (r.value.contractAddress <==> "contract_address" in names)
              && (r.value.logs <==> "logs" in names)
              && (r.value.functionSelector <==> "function_selector" in names)
              && (r.value.hash <==> "hash" in names)
              && (r.value.txHash <==> "tx_hash" in names)
  {
    var h := NO_HINTS;
    var i := 0;
    while i < |names|
      invariant i <= |names|
      invariant AllValid(names[..i])
      invariant Parsed(names[..i]) == Ok(h)
    {
      ParsedAppend(names[..i], names[i]);
      assert names[..i + 1] == names[..i] + [names[i]];
      var next := SetFlag(h, names[i]);
      if next.Err? {
        ParsedStop(names, i);
        return next;
      }
      h := next.value;
      i := i + 1;
    }
    assert names[..i] == names;
    r := Ok(h);
  }
}
