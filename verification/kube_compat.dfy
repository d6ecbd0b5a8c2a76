/**
 * The registry's stored connection profile (`KubeConfig`, defined in
 * `crate::compat::kube_compat`, which is not part of this model).
 *
 * The registry never looks inside a profile except to overwrite its connect
 * timeout. The model keeps that field and stands for all the others, whatever
 * they are, with one opaque component that is only ever copied.
 */
module KubeCompat {
  import opened Results

  /**
   * A stored connection profile: `otherFields` is everything except the
   * connect timeout; `connectTimeout` is in whole seconds.
   */
  datatype KubeConfig = KubeConfig(otherFields: string, connectTimeout: Option<nat>)

  /** The connect timeout, in seconds, forced onto every config a client is built from. */
  const ClientConnectTimeoutSecs: nat := 10

  /** True iff `a` and `b` agree on every field except the connect timeout. */
  predicate SameExceptTimeout(a: KubeConfig, b: KubeConfig) {
    a.otherFields == b.otherFields
  }

  /** A copy of `c` whose connect timeout is `secs`, whatever `c` had. */
  function WithConnectTimeout(c: KubeConfig, secs: nat): (r: KubeConfig)
    ensures r.connectTimeout == Some(secs)
    ensures SameExceptTimeout(r, c)
  {
    c.(connectTimeout := Some(secs))
  }

  /** The copy a client is built from: the stored config with the 10 s connect timeout. */
  function ClientConfig(c: KubeConfig): (r: KubeConfig)
    ensures r.connectTimeout == Some(ClientConnectTimeoutSecs)
    ensures SameExceptTimeout(r, c)
    ensures c.connectTimeout == Some(ClientConnectTimeoutSecs) <==> r == c
  {
    WithConnectTimeout(c, ClientConnectTimeoutSecs)
  }

  /** Forcing the timeout twice is forcing it once. */
  lemma ClientConfigIdempotent(c: KubeConfig)
    ensures ClientConfig(ClientConfig(c)) == ClientConfig(c)
  {
  }

  /** Two stored configs give the same client config exactly when they differ at most in the timeout. */
  lemma ClientConfigForgetsTimeout(a: KubeConfig, b: KubeConfig)
    ensures ClientConfig(a) == ClientConfig(b) <==> SameExceptTimeout(a, b)
  {
  }
}
