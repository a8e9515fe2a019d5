/** The request header map as the gate reads it: `HeaderMap::get`, whose
    keys are compared without regard to ASCII case and which yields the
    first value stored under a name. */
module Headers {
  import opened Base

  datatype Header = Header(name: string, value: Bytes)

  type HeaderList = seq<Header>

  const SecretTokenHeader: string := "x-http-secret-token"
  const AltSecretTokenHeader: string := "x-https-secret-token"
  const ProxyAuthorization: string := "proxy-authorization"

  /** ASCII lower-casing, the normal form of an HTTP header name. */
  function LowerAscii(s: string): (r: string)
    ensures |r| == |s|
    ensures forall i :: 0 <= i < |s| ==>
      r[i] == (if 'A' <= s[i] <= 'Z' then (s[i] as int + 32) as char else s[i])
  {
    seq(|s|, i requires 0 <= i < |s| =>
      if 'A' <= s[i] <= 'Z' then (s[i] as int + 32) as char else s[i])
  }

  /** Two header names denote the same header. */
  predicate SameName(a: string, b: string) {
    LowerAscii(a) == LowerAscii(b)
  }

  predicate Names(h: Header, key: string) {
    SameName(h.name, key)
  }

  /** `headers.get(key)`: the value of the first header named `key`. */
  function Get(hs: HeaderList, key: string): (r: Option<Bytes>)
    ensures r.None? <==> forall i :: 0 <= i < |hs| ==> !Names(hs[i], key)
    ensures r.Some? ==> exists i :: 0 <= i < |hs| && Names(hs[i], key) && r.value == hs[i].value
                                    && forall j :: 0 <= j < i ==> !Names(hs[j], key)
  {
    if hs == [] then None
    else if Names(hs[0], key) then Some(hs[0].value)
    else
      var r := Get(hs[1..], key);
      assert forall i :: 1 <= i < |hs| ==> hs[i] == hs[1..][i - 1];
      if r.Some? then
        var i :| 0 <= i < |hs| - 1 && Names(hs[1..][i], key) && r.value == hs[1..][i].value
                 && forall j :: 0 <= j < i ==> !Names(hs[1..][j], key);
        assert Names(hs[i + 1], key) && forall j :: 0 <= j < i + 1 ==> !Names(hs[j], key);
        r
      else r
  }

  /** Inserting a header under another name anywhere in the list leaves the
      value read for `key` unchanged. */
  lemma {:induction false} GetIgnoresOtherHeader(hs: HeaderList, k: nat, h: Header, key: string)
    requires k <= |hs|
    requires !Names(h, key)
    ensures Get(hs[..k] + [h] + hs[k..], key) == Get(hs, key)
    decreases k
  {
    var hs' := hs[..k] + [h] + hs[k..];
    if k == 0 {
      assert hs' == [h] + hs;
      assert hs'[1..] == hs;
    } else {
      assert hs'[0] == hs[0];
      assert hs'[1..] == hs[1..][..k - 1] + [h] + hs[1..][k - 1..];
      GetIgnoresOtherHeader(hs[1..], k - 1, h, key);
    }
  }

  /** Spelling the key in another case reads the same header. */
  lemma {:induction false} GetIsCaseInsensitive(hs: HeaderList, key: string, key': string)
    requires SameName(key, key')
    ensures Get(hs, key) == Get(hs, key')
  {
    if hs != [] {
      GetIsCaseInsensitive(hs[1..], key, key');
    }
  }
}
