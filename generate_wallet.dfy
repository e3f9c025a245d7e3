/** The auto-save step of the wallet generator script: find the first
    `VITE_TEST_ACCOUNT_<n>` key that the env file does not mention yet and
    append `VITE_TEST_ACCOUNT_<n>=<private key>` to the file. */
module GenerateWallet {
  import opened Wrappers
  import opened Text

  const KeyPrefix: string := "VITE_TEST_ACCOUNT_"

  /** The env key for test account `n`. */
  function EnvKey(n: nat): string
  {
    KeyPrefix + NatToString(n)
  }

  /** Index `n` counts as used when its key occurs anywhere in the file text. */
  predicate Taken(env: string, n: nat)
  {
    Contains(env, EnvKey(n))
  }

  /** `n` is the least index whose key the file does not contain. */
  predicate IsLeastFree(env: string, n: nat)
  {
    !Taken(env, n) && forall j :: 0 <= j < n ==> Taken(env, j)
  }

  /** A key longer than the file cannot occur in it, so a used index is
      below ten to the power of the file's length. */
  lemma TakenIndexBounded(env: string, n: nat)
    requires Taken(env, n)
    ensures n < Pow10(|env|)
  {
    ContainsBoundsLength(env, EnvKey(n));
    NatToStringBound(n);
    Pow10Monotone(|NatToString(n)|, |env|);
  }

  /** The search loop: count up from 0 while the key is in the text. */
  method NextFreeIndex(env: string) returns (n: nat)
    ensures IsLeastFree(env, n)
  {
    n := 0;
    while Taken(env, n)
      invariant forall j :: 0 <= j < n ==> Taken(env, j)
      decreases Pow10(|env|) - n
    {
      TakenIndexBounded(env, n);
      n := n + 1;
    }
  }

  /** The match is by substring: an existing `VITE_TEST_ACCOUNT_10` makes
      index 1 count as used even when `VITE_TEST_ACCOUNT_1` is absent. */
  lemma TenShadowsOne(env: string)
    requires Taken(env, 10)
    ensures Taken(env, 1)
  {
    assert NatToString(10) == NatToString(1) + ['0'];
    assert EnvKey(10) == EnvKey(1) + ['0'];
    ContainsPrefix(env, EnvKey(1), ['0']);
  }

  /** The text appended to the file for index `n`. */
  function NewEntry(n: nat, privateKey: string): string
  {
    "\n\n" + EnvKey(n) + "=" + privateKey
  }

  /** After appending the entry for the least free index `n`, every index up
      to and including `n` is used, so the next run picks a larger one. */
  lemma AppendAdvancesIndex(env: string, n: nat, privateKey: string)
    requires IsLeastFree(env, n)
    ensures forall j :: 0 <= j <= n ==> Taken(env + NewEntry(n, privateKey), j)
    ensures forall m: nat :: IsLeastFree(env + NewEntry(n, privateKey), m) ==> m > n
  {
    var after := env + NewEntry(n, privateKey);
    forall j | 0 <= j <= n
      ensures Taken(after, j)
    {
      if j < n {
        assert Taken(env, j);
        ContainsAppend(env, NewEntry(n, privateKey), EnvKey(j));
      } else {
        assert after == (env + "\n\n") + EnvKey(n) + ("=" + privateKey);
        ContainsInfix(env + "\n\n", EnvKey(n), "=" + privateKey);
      }
    }
  }

  /** The env file `client/.env`: whether it exists and its text. */
  class EnvFile {
    var present: bool
    var content: string

    constructor (present: bool, content: string)
      ensures this.present == present && this.content == content
    {
      this.present := present;
      this.content := content;
    }

    /** Appends the key line when the file exists; skips the save otherwise.
        Returns the index used, if any. */
    method AutoSave(privateKey: string) returns (saved: Option<nat>)
      modifies this
      ensures present == old(present)
      ensures !old(present) ==> saved == None && content == old(content)
      ensures old(present) ==> saved.Some? && IsLeastFree(old(content), saved.value)
                               && content == old(content) + NewEntry(saved.value, privateKey)
    {
      if present {
        var index := NextFreeIndex(content);
        content := content + NewEntry(index, privateKey);
        saved := Some(index);
      } else {
        saved := None;
      }
    }
  }
}
