/**
 * Masking secrets in logged configuration and environment: only the
 * first and the last eighth of a long secret stay readable.
 */
module ListConfig {
  import opened Strings

  /** Whether position `i` of an `n`-character secret stays readable. */
  predicate Shown(n: nat, i: nat) {
    n > 7 && (i < n / 8 || i > n / 8 * 7)
  }

  /** The masked secret: readable positions keep their character, all others are '*'. */
  function Masked(pass: string): (r: string)
    ensures |r| == |pass|
    ensures forall i :: 0 <= i < |pass| ==> r[i] == if Shown(|pass|, i) then pass[i] else '*'
  {
    seq(|pass|, i requires 0 <= i < |pass| => if Shown(|pass|, i) then pass[i] else '*')
  }

  /**
   * `maskPass`: fills a buffer as long as the secret, position by
   * position. Every character is taken to be one byte.
   */
  method MaskPass(pass: string) returns (r: string)
    ensures r == Masked(pass)
  {
    var container := new char[|pass|];
    var bp := 0;
    var i := 0;
    while i < |pass|
      invariant 0 <= i <= |pass| && bp == i
      invariant forall k :: 0 <= k < i ==> container[k] == if Shown(|pass|, k) then pass[k] else '*'
    {
      if |pass| > 7 && (i < |pass| / 8 || i > |pass| / 8 * 7) {
        container[bp] := pass[i];
      } else {
        container[bp] := '*';
      }
      bp := bp + 1;
      i := i + 1;
    }
    r := container[..];
  }

  /** A secret of at most seven characters is masked entirely. */
  lemma ShortSecretHidden(pass: string)
    requires |pass| <= 7
    ensures Masked(pass) == seq(|pass|, _ => '*')
  {
  }

  /** Of an eight-character secret only the first character shows. */
  lemma EightShowsFirst(pass: string)
    requires |pass| == 8
    ensures Masked(pass) == [pass[0]] + "*******"
  {
    assert forall i :: 1 <= i < 8 ==> !Shown(8, i);
  }

  /** Of a longer secret the middle is always masked: positions n/8 to 7(n/8). */
  lemma MiddleHidden(pass: string, i: nat)
    requires |pass| / 8 <= i <= |pass| / 8 * 7 && i < |pass|
    ensures Masked(pass)[i] == '*'
  {
  }

  /** Masking twice is masking once. */
  lemma MaskIdempotent(pass: string)
    ensures Masked(Masked(pass)) == Masked(pass)
  {
  }

  /** The key fragments that mark a secret. */
  const MATCH_KEYS: seq<string> := ["key", "pass", "token", "secret", "credentials"]

  function LowerChar(c: char): char {
    if 'A' <= c <= 'Z' then (c as int - 'A' as int + 'a' as int) as char else c
  }

  function Lower(s: string): (r: string)
    ensures |r| == |s|
  {
    seq(|s|, i requires 0 <= i < |s| => LowerChar(s[i]))
  }

  /** `(?i)mk` matches `k`: the fragment occurs in it, ignoring the case of ASCII letters. */
  predicate ContainsFold(k: string, mk: string) {
    Contains(Lower(k), mk)
  }

  /** Whether a key names a secret. */
  predicate SecretKey(k: string) {
    exists j :: 0 <= j < |MATCH_KEYS| && ContainsFold(k, MATCH_KEYS[j])
  }

  /**
   * `MaskEnvValue`: the fragments are tried in order, and the first one
   * the key contains has the value masked; a key with none of them gives
   * the value back.
   */
  method MaskEnvValue(k: string, v: string) returns (r: string)
    ensures SecretKey(k) ==> r == Masked(v)
    ensures !SecretKey(k) ==> r == v
  {
    var j := 0;
    while j < |MATCH_KEYS|
      invariant 0 <= j <= |MATCH_KEYS|
      invariant forall l :: 0 <= l < j ==> !ContainsFold(k, MATCH_KEYS[l])
    {
      if ContainsFold(k, MATCH_KEYS[j]) {
        r := MaskPass(v);
        return;
      }
      j := j + 1;
    }
    r := v;
  }

  /** Lower-casing twice is lower-casing once. */
  lemma LowerIdempotent(s: string)
    ensures Lower(Lower(s)) == Lower(s)
  {
  }

  /** Whether a key names a secret does not depend on the case of its letters. */
  lemma SecretKeyIgnoresCase(k: string)
    ensures SecretKey(Lower(k)) <==> SecretKey(k)
  {
    LowerIdempotent(k);
  }

  /** Any key ending in a fragment names a secret, whatever precedes it: "AWS_secret" is one. */
  lemma FragmentAtEnd(prefix: string, j: nat)
    requires j < |MATCH_KEYS|
    ensures SecretKey(prefix + MATCH_KEYS[j])
  {
    var k := prefix + MATCH_KEYS[j];
    var mk := MATCH_KEYS[j];
    assert forall c :: c in mk ==> 'a' <= c <= 'z';
    assert Lower(k)[|prefix|..] == mk by {
      forall i | 0 <= i < |mk| ensures Lower(k)[|prefix| + i] == mk[i] {
        assert k[|prefix| + i] == mk[i];
      }
    }
    assert OccursAt(Lower(k), mk, |prefix|);
  }
}
