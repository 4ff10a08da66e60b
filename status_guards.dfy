// The status checks that the contract and package entities run before every
// insert and update.  Both test "is the status a substring of the allowed
// letters" (Java's String.contains), not "is it one of the letters".
module StatusGuards {
  import opened Wrappers

  /** What the pre-persist / pre-update hook does with a status value. */
  datatype GuardResult =
    | Accepted
    | IllegalArgument   // IllegalArgumentException("Invalid status value: ...")
    | NullStatus       // String.contains on a null status

  const ContractStatusLetters: string := "IPFS"
  const PackageStatusLetters: string := "IPFW"

  /** Java's hay.contains(needle): needle occurs as a contiguous block of hay. */
  predicate Contains(hay: string, needle: string)
  {
    exists i :: 0 <= i <= |hay| - |needle| && Block(hay, i, |needle|) == needle
  }

  /** The n letters of hay starting at position i. */
  function Block(hay: string, i: int, n: int): string
    requires 0 <= i && 0 <= n && i + n <= |hay|
  {
    hay[i..i + n]
  }

  function Guard(letters: string, status: Option<string>): GuardResult
  {
    match status
    case None => NullStatus
    case Some(s) => if Contains(letters, s) then Accepted else IllegalArgument
  }

  /** DynDiscContract.validateStatus. */
  function GuardContractStatus(status: Option<string>): GuardResult
  {
    Guard(ContractStatusLetters, status)
  }

  /** DynDiscPackage.validateStatus. */
  function GuardPackageStatus(status: Option<string>): GuardResult
  {
    Guard(PackageStatusLetters, status)
  }

  /** Every contiguous block of the four letters, the empty one included. */
  function Blocks(letters: string): (r: set<string>)
    requires |letters| == 4
  {
    {Block(letters, 0, 0),
     Block(letters, 0, 1), Block(letters, 1, 1), Block(letters, 2, 1), Block(letters, 3, 1),
     Block(letters, 0, 2), Block(letters, 1, 2), Block(letters, 2, 2),
     Block(letters, 0, 3), Block(letters, 1, 3),
     Block(letters, 0, 4)}
  }

  lemma BlockIsListed(letters: string, i: int, n: int)
    requires |letters| == 4 && 0 <= i && 0 <= n && i + n <= 4
    ensures Block(letters, i, n) in Blocks(letters)
  {
    assert n == 0 ==> Block(letters, i, n) == Block(letters, 0, 0);
  }

  lemma BlocksOfFour(letters: string, s: string)
    requires |letters| == 4
    ensures Contains(letters, s) <==> s in Blocks(letters)
  {
    if Contains(letters, s) {
      var i :| 0 <= i <= |letters| - |s| && Block(letters, i, |s|) == s;
      BlockIsListed(letters, i, |s|);
    } else {
      forall i, n | 0 <= i && 0 <= n && i + n <= 4 ensures Block(letters, i, n) != s {
      }
    }
  }

  /** The contract guard accepts exactly the contiguous blocks of "IPFS" and throws on null. */
  lemma ContractGuardAccepts(status: Option<string>)
    ensures GuardContractStatus(status) == NullStatus <==> status.None?
    ensures GuardContractStatus(status) == Accepted <==>
      status.Some? && status.value in {"", "I", "P", "F", "S", "IP", "PF", "FS", "IPF", "PFS", "IPFS"}
  {
    if status.Some? {
      BlocksOfFour(ContractStatusLetters, status.value);
      var l := ContractStatusLetters;
      assert Block(l, 0, 0) == "" && Block(l, 0, 4) == "IPFS";
      assert Block(l, 0, 1) == "I" && Block(l, 1, 1) == "P" && Block(l, 2, 1) == "F" && Block(l, 3, 1) == "S";
      assert Block(l, 0, 2) == "IP" && Block(l, 1, 2) == "PF" && Block(l, 2, 2) == "FS";
      assert Block(l, 0, 3) == "IPF" && Block(l, 1, 3) == "PFS";
    }
  }

  /** The package guard accepts exactly the contiguous blocks of "IPFW" and throws on null. */
  lemma PackageGuardAccepts(status: Option<string>)
    ensures GuardPackageStatus(status) == NullStatus <==> status.None?
    ensures GuardPackageStatus(status) == Accepted <==>
      status.Some? && status.value in {"", "I", "P", "F", "W", "IP", "PF", "FW", "IPF", "PFW", "IPFW"}
  {
    if status.Some? {
      BlocksOfFour(PackageStatusLetters, status.value);
      var l := PackageStatusLetters;
      assert Block(l, 0, 0) == "" && Block(l, 0, 4) == "IPFW";
      assert Block(l, 0, 1) == "I" && Block(l, 1, 1) == "P" && Block(l, 2, 1) == "F" && Block(l, 3, 1) == "W";
      assert Block(l, 0, 2) == "IP" && Block(l, 1, 2) == "PF" && Block(l, 2, 2) == "FW";
      assert Block(l, 0, 3) == "IPF" && Block(l, 1, 3) == "PFW";
    }
  }

  /** A single-letter contract status passes iff it is one of I, P, F, S (so W is refused). */
  lemma ContractGuardSingleLetter(c: char)
    ensures GuardContractStatus(Some([c])) == Accepted <==> c in {'I', 'P', 'F', 'S'}
    ensures GuardContractStatus(Some([c])) != Accepted ==> GuardContractStatus(Some([c])) == IllegalArgument
  {
    ContractGuardAccepts(Some([c]));
  }

  /** A single-letter package status passes iff it is one of I, P, F, W (so S is refused). */
  lemma PackageGuardSingleLetter(c: char)
    ensures GuardPackageStatus(Some([c])) == Accepted <==> c in {'I', 'P', 'F', 'W'}
    ensures GuardPackageStatus(Some([c])) != Accepted ==> GuardPackageStatus(Some([c])) == IllegalArgument
  {
    PackageGuardAccepts(Some([c]));
  }
}
