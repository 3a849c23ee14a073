/**
 * Payability lookup over an ABI (the contract's interface description):
 * `EthEngine.isMethodPayable`.
 *
 * An ABI is an ordered list of descriptors. The lookup compares names only and stops at
 * the first descriptor whose name matches, so overloads after it are never looked at.
 */
module Abi {
  import opened Wrappers

  /**
   * One ABI entry. Entries such as the constructor or the fallback function have no
   * `name`. Older ABI formats have no `stateMutability`, and the lookup treats them as
   * payable.
   */
  datatype MethodDescriptor = MethodDescriptor(name: Option<string>, stateMutability: Option<string>)

  const NonPayable: string := "nonpayable"

  /** Whether entry `i` is the first entry named `name`. */
  ghost predicate IsFirstNamed(abi: seq<MethodDescriptor>, name: string, i: int)
  {
    0 <= i < |abi| && abi[i].name == Some(name) &&
    forall j :: 0 <= j < i ==> abi[j].name != Some(name)
  }

  /** Index of the first descriptor named `name`, if there is one. */
  function FirstNamed(abi: seq<MethodDescriptor>, name: string): (r: Option<nat>)
    ensures r.Some? ==> IsFirstNamed(abi, name, r.value)
    ensures r.None? <==> forall j :: 0 <= j < |abi| ==> abi[j].name != Some(name)
  {
    if |abi| == 0 then None
    else if abi[0].name == Some(name) then Some(0)
    else match FirstNamed(abi[1..], name)
      case None => None
      case Some(k) => Some(k + 1)
  }

  /** The verdict for `name`: the first match decides, and a missing name is not payable. */
  function Payable(abi: seq<MethodDescriptor>, name: string): bool
  {
    match FirstNamed(abi, name)
    case None => false
    case Some(i) => abi[i].stateMutability != Some(NonPayable)
  }

  /**
   * The lookup loop of `isMethodPayable`: walk the descriptors in order and return at
   * the first one whose name matches.
   */
  method IsMethodPayable(name: string, abi: seq<MethodDescriptor>) returns (payable: bool)
    ensures payable <==> exists i :: IsFirstNamed(abi, name, i) && abi[i].stateMutability != Some(NonPayable)
    ensures payable == Payable(abi, name)
  {
    var i := 0;
    while i < |abi|
      invariant 0 <= i <= |abi|
      invariant forall j :: 0 <= j < i ==> abi[j].name != Some(name)
    {
      if abi[i].name == Some(name) {
        assert IsFirstNamed(abi, name, i);
        FirstNamedUnique(abi, name, i);
        forall k | IsFirstNamed(abi, name, k) ensures k == i {
          FirstNamedUnique(abi, name, k);
        }
        return abi[i].stateMutability != Some(NonPayable);
      }
      i := i + 1;
    }
    payable := false;
    assert FirstNamed(abi, name).None?;
  }

  /** At most one index can be the first match; `FirstNamed` finds it. */
  lemma FirstNamedUnique(abi: seq<MethodDescriptor>, name: string, i: int)
    requires IsFirstNamed(abi, name, i)
    ensures FirstNamed(abi, name) == Some(i)
  {
    assert abi[i].name == Some(name);
  }

  /** A name missing from the ABI is classified as not payable. */
  lemma AbsentNameNotPayable(abi: seq<MethodDescriptor>, name: string)
    requires forall j :: 0 <= j < |abi| ==> abi[j].name != Some(name)
    ensures !Payable(abi, name)
  {
  }

  /**
   * Overloads: once a descriptor named `name` occurs, whatever follows it (for instance a
   * second overload with a different mutability) does not change the verdict.
   */
  lemma {:induction false} FirstMatchWins(abi: seq<MethodDescriptor>, rest: seq<MethodDescriptor>, name: string)
    requires exists j :: 0 <= j < |abi| && abi[j].name == Some(name)
    ensures Payable(abi + rest, name) == Payable(abi, name)
  {
    var i := FirstNamed(abi, name).value;
    assert IsFirstNamed(abi + rest, name, i) by {
      assert (abi + rest)[i] == abi[i];
      forall j | 0 <= j < i ensures (abi + rest)[j].name != Some(name) {
        assert (abi + rest)[j] == abi[j];
      }
    }
    FirstNamedUnique(abi + rest, name, i);
  }

  /** Descriptors with other names in front of the list do not change the verdict. */
  lemma OtherNamesIgnored(front: seq<MethodDescriptor>, abi: seq<MethodDescriptor>, name: string)
    requires forall j :: 0 <= j < |front| ==> front[j].name != Some(name)
    ensures Payable(front + abi, name) == Payable(abi, name)
  {
    var whole := front + abi;
    match FirstNamed(abi, name)
    case None =>
      forall j | 0 <= j < |whole| ensures whole[j].name != Some(name) {
        if j >= |front| { assert whole[j] == abi[j - |front|]; }
      }
    case Some(i) =>
      assert whole[|front| + i] == abi[i];
      forall j | 0 <= j < |front| + i ensures whole[j].name != Some(name) {
        if j >= |front| { assert whole[j] == abi[j - |front|]; }
      }
      FirstNamedUnique(whole, name, |front| + i);
  }

  /**
   * Only the exact string "nonpayable" on the first descriptor with the name makes a
   * method non-payable: a read-only `view` or `pure` method, or one without
   * `stateMutability`, is classified payable.
   */
  lemma {:induction false} ReadOnlyMethodsArePayable(abi: seq<MethodDescriptor>, name: string, i: nat)
    requires IsFirstNamed(abi, name, i)
    ensures Payable(abi, name) <==> abi[i].stateMutability != Some(NonPayable)
    ensures (abi[i].stateMutability == Some("view") || abi[i].stateMutability == Some("pure") ||
             abi[i].stateMutability.None?) ==> Payable(abi, name)
  {
    FirstNamedUnique(abi, name, i);
  }
}
