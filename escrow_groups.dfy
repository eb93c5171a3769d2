/** `getContractGroups`: contracts grouped by the unordered pair of their parties. */
module EscrowGroups {
  import opened Seqs
  import opened EscrowRecords

  /** The default `Array.prototype.sort` order on strings: lexicographic on characters, a proper
      prefix first. */
  predicate Below(a: string, b: string)
  {
    if a == [] then b != []
    else if b == [] then false
    else if a[0] != b[0] then a[0] < b[0]
    else Below(a[1..], b[1..])
  }

  /** Of two different strings exactly one sorts first. */
  lemma {:induction false} BelowTotal(a: string, b: string)
    ensures a != b <==> Below(a, b) || Below(b, a)
    ensures !(Below(a, b) && Below(b, a))
  {
    if a != [] && b != [] && a[0] == b[0] {
      BelowTotal(a[1..], b[1..]);
      assert a == [a[0]] + a[1..] && b == [b[0]] + b[1..];
    }
  }

  const Separator := '|'

  /** `[a, b].sort().join('|')`. */
  function PartyKey(a: string, b: string): (k: string)
    ensures k == a + [Separator] + b || k == b + [Separator] + a
    ensures Below(b, a) ==> k == b + [Separator] + a
  {
    if Below(b, a) then b + [Separator] + a else a + [Separator] + b
  }

  /** The key ignores the order of the parties. */
  lemma PartyKeySymmetric(a: string, b: string)
    ensures PartyKey(a, b) == PartyKey(b, a)
  {
    BelowTotal(a, b);
  }

  /** The separator may occur inside a party, so different pairs can share a key. */
  lemma PartyKeyCollides()
    ensures PartyKey("a|b", "c") == PartyKey("a", "b|c") == "a|b|c"
  {
    assert Below("a|b", "c");
    assert Below("a", "b|c");
  }

  function ContractKey(c: ContractData): string
  {
    PartyKey(c.partyA, c.partyB)
  }

  /** The `groups` object: its keys in insertion order, and the list under each key. */
  datatype Groups = Groups(keys: seq<string>, lists: map<string, seq<ContractData>>)

  /** One `forEach` step: create the list under a new key, then push the contract. */
  function Add(g: Groups, c: ContractData): Groups
  {
    var k := ContractKey(c);
    if k in g.lists then Groups(g.keys, g.lists[k := g.lists[k] + [c]])
    else Groups(g.keys + [k], g.lists[k := [c]])
  }

  /** The object after the `forEach` over `contracts`. */
  function GroupsOf(contracts: seq<ContractData>): Groups
  {
    if contracts == [] then Groups([], map[])
    else Add(GroupsOf(contracts[..|contracts| - 1]), contracts[|contracts| - 1])
  }

  /** The keys listed are exactly the keys stored, each once. */
  ghost predicate WellFormed(g: Groups)
  {
    && (forall k :: k in g.lists <==> k in g.keys)
    && (forall i, j :: 0 <= i < j < |g.keys| ==> g.keys[i] != g.keys[j])
  }

  /** Each `forEach` step keeps the key list and the stored keys in step. */
  lemma {:induction false} GroupsWellFormed(contracts: seq<ContractData>)
    ensures WellFormed(GroupsOf(contracts))
  {
    if contracts != [] {
      GroupsWellFormed(contracts[..|contracts| - 1]);
    }
  }

  function KeyIs(k: string): ContractData -> bool
  {
    c => ContractKey(c) == k
  }

  /** A key is present exactly when some contract has it. */
  lemma {:induction false} GroupKeysPresent(contracts: seq<ContractData>)
    ensures forall k :: k in GroupsOf(contracts).lists <==> exists i :: 0 <= i < |contracts| && ContractKey(contracts[i]) == k
  {
    if contracts != [] {
      var t := contracts[..|contracts| - 1];
      GroupKeysPresent(t);
      var g := GroupsOf(t);
      forall k
        ensures k in GroupsOf(contracts).lists <==> exists i :: 0 <= i < |contracts| && ContractKey(contracts[i]) == k
      {
        if k in g.lists {
          var i :| 0 <= i < |t| && ContractKey(t[i]) == k;
          assert contracts[i] == t[i];
        }
        if exists i :: 0 <= i < |contracts| && ContractKey(contracts[i]) == k {
          var i :| 0 <= i < |contracts| && ContractKey(contracts[i]) == k;
          if i < |t| {
            assert t[i] == contracts[i];
          }
        }
      }
    }
  }

  /** The list under a key is that pair's contracts in their original order. */
  lemma {:induction false} GroupListsFiltered(contracts: seq<ContractData>)
    ensures forall k :: k in GroupsOf(contracts).lists ==> GroupsOf(contracts).lists[k] == Filter(contracts, KeyIs(k))
  {
    if contracts != [] {
      var t, x := contracts[..|contracts| - 1], contracts[|contracts| - 1];
      assert contracts == t + [x];
      GroupListsFiltered(t);
      GroupKeysPresent(t);
      var g := GroupsOf(t);
      forall k | k in GroupsOf(contracts).lists
        ensures GroupsOf(contracts).lists[k] == Filter(contracts, KeyIs(k))
      {
        FilterSnoc(t, x, KeyIs(k));
        if k == ContractKey(x) && k !in g.lists {
          forall i | 0 <= i < |t|
            ensures !KeyIs(k)(t[i])
          {
          }
          FilterNone(t, KeyIs(k));
        }
      }
    }
  }

  /** Every contract is in the group of its own pair and in no other. */
  lemma ExactlyOneGroup(contracts: seq<ContractData>, c: ContractData, k: string)
    requires c in contracts
    ensures ContractKey(c) in GroupsOf(contracts).lists
    ensures k in GroupsOf(contracts).lists ==> (c in GroupsOf(contracts).lists[k] <==> k == ContractKey(c))
  {
    GroupKeysPresent(contracts);
    GroupListsFiltered(contracts);
    var i :| 0 <= i < |contracts| && contracts[i] == c;
    if k in GroupsOf(contracts).lists {
      var f := GroupsOf(contracts).lists[k];
      assert f == Filter(contracts, KeyIs(k));
      if c in f {
        var j :| 0 <= j < |f| && f[j] == c;
        assert KeyIs(k)(f[j]);
      }
    }
  }

  /** Within a group the contracts keep their relative order. */
  lemma GroupKeepsOrder(contracts: seq<ContractData>, k: string)
    requires k in GroupsOf(contracts).lists
    ensures IsSubsequence(GroupsOf(contracts).lists[k], contracts)
  {
    GroupListsFiltered(contracts);
    FilterIsSubsequence(contracts, KeyIs(k));
  }

  /** Total length of the lists under `keys`. */
  function SumSizes(keys: seq<string>, lists: map<string, seq<ContractData>>): nat
  {
    if keys == [] then 0
    else SumSizes(keys[..|keys| - 1], lists) + (if keys[|keys| - 1] in lists then |lists[keys[|keys| - 1]]| else 0)
  }

  lemma {:induction false} SumSizesFrame(keys: seq<string>, lists: map<string, seq<ContractData>>, k: string, v: seq<ContractData>)
    requires forall i :: 0 <= i < |keys| ==> keys[i] in lists && keys[i] != k
    ensures SumSizes(keys, lists[k := v]) == SumSizes(keys, lists)
  {
    if keys != [] {
      SumSizesFrame(keys[..|keys| - 1], lists, k, v);
    }
  }

  lemma {:induction false} SumSizesPush(keys: seq<string>, lists: map<string, seq<ContractData>>, k: string, c: ContractData)
    requires forall i :: 0 <= i < |keys| ==> keys[i] in lists
    requires forall i, j :: 0 <= i < j < |keys| ==> keys[i] != keys[j]
    requires k in keys
    ensures SumSizes(keys, lists[k := lists[k] + [c]]) == SumSizes(keys, lists) + 1
  {
    var init := keys[..|keys| - 1];
    if keys[|keys| - 1] == k {
      SumSizesFrame(init, lists, k, lists[k] + [c]);
    } else {
      assert k in init by {
        var i :| 0 <= i < |keys| && keys[i] == k;
        assert init[i] == k;
      }
      SumSizesPush(init, lists, k, c);
    }
  }

  /** The group sizes add up to the number of contracts. */
  lemma {:induction false} GroupSizesSum(contracts: seq<ContractData>)
    ensures SumSizes(GroupsOf(contracts).keys, GroupsOf(contracts).lists) == |contracts|
  {
    if contracts != [] {
      var t, x := contracts[..|contracts| - 1], contracts[|contracts| - 1];
      GroupSizesSum(t);
      GroupsWellFormed(t);
      var g := GroupsOf(t);
      var k := ContractKey(x);
      if k in g.lists {
        SumSizesPush(g.keys, g.lists, k, x);
      } else {
        var keys := g.keys + [k];
        assert keys[..|keys| - 1] == g.keys;
        SumSizesFrame(g.keys, g.lists, k, [x]);
      }
    }
  }

  /** `getContractGroups` run over `contracts`. */
  method GetContractGroups(contracts: seq<ContractData>) returns (groups: Groups)
    ensures groups == GroupsOf(contracts)
  {
    var keys: seq<string> := [];
    var lists: map<string, seq<ContractData>> := map[];
    var i := 0;
    while i < |contracts|
      invariant 0 <= i <= |contracts|
      invariant Groups(keys, lists) == GroupsOf(contracts[..i])
    {
      var contract := contracts[i];
      var parties := PartyKey(contract.partyA, contract.partyB);
      assert parties == ContractKey(contract);
      ghost var before := Groups(keys, lists);
      if parties !in lists {
        keys := keys + [parties];
        lists := lists[parties := []];
        assert lists[parties] + [contract] == [contract];
      }
      lists := lists[parties := lists[parties] + [contract]];
      assert Groups(keys, lists) == Add(before, contract);
      assert contracts[..i + 1][..i] == contracts[..i];
      assert GroupsOf(contracts[..i + 1]) == Add(GroupsOf(contracts[..i]), contract);
      i := i + 1;
    }
    assert contracts[..i] == contracts;
    groups := Groups(keys, lists);
  }
}
