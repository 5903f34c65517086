/** Redaction of the PIN and the one-time code in the copy of the payload that
    is written to the log (`mask` and the `logged` object). */
module Masking {
  import opened JsObjects

  /** The two fields whose values are redacted in the log copy. */
  const Secrets: set<string> := {"loginPin", "otp"}

  /** `'*'.repeat(n)` */
  function Stars(n: nat): (r: string)
    ensures |r| == n
    ensures forall i :: 0 <= i < n ==> r[i] == '*'
  {
    if n == 0 then "" else "*" + Stars(n - 1)
  }

  /** `mask(s)`: a falsy value is returned as it is; otherwise the result has
      the same length, all asterisks up to two characters, and beyond that
      asterisks followed by the last two characters of the value. */
  function Mask(v: Value): (r: Value)
    ensures !Truthy(v) ==> r == v
    ensures v.Some? <==> r.Some?
    ensures v.Some? ==> |r.value| == |v.value|
    ensures v.Some? && |v.value| <= 2 ==> forall i :: 0 <= i < |r.value| ==> r.value[i] == '*'
    ensures v.Some? && |v.value| > 2 ==>
              && (forall i :: 0 <= i < |v.value| - 2 ==> r.value[i] == '*')
              && r.value[|r.value| - 2..] == v.value[|v.value| - 2..]
  {
    if !Truthy(v) then v
    else
      var ss := v.value;
      if |ss| <= 2 then Some(Stars(|ss|))
      else Some(Stars(|ss| - 2) + ss[|ss| - 2..])
  }

  /** The value that the log copy holds for key k whose payload value is v. */
  function LoggedValue(k: string, v: Value): Value {
    if k in Secrets && Truthy(v) then Mask(v) else v
  }

  /** Specification of the log copy `{ ...payload }` with the PIN and the code
      replaced by their masked forms: the same keys in the same order, the
      same values except for a truthy PIN or code. */
  function MaskedCopy(p: Payload): (r: Payload)
    ensures r.keys == p.keys
    ensures forall k :: k !in Secrets ==> Get(r, k) == Get(p, k)
    ensures forall k :: k in Secrets ==>
              Get(r, k) == if Truthy(Get(p, k)) then Mask(Get(p, k)) else Get(p, k)
  {
    JsObject(p.keys, map k | k in p.values :: LoggedValue(k, p.values[k]))
  }

  /** The log copy as the handler builds it: a shallow copy, then two
      conditional property assignments. */
  method MaskedLogCopy(payload: Payload) returns (logged: Payload)
    ensures logged == MaskedCopy(payload)
  {
    logged := payload;
    if Truthy(Get(logged, "loginPin")) {
      logged := Put(logged, "loginPin", Mask(Get(logged, "loginPin")));
    }
    if Truthy(Get(logged, "otp")) {
      logged := Put(logged, "otp", Mask(Get(logged, "otp")));
    }
    var spec := MaskedCopy(payload);
    forall k
      ensures Get(logged, k) == Get(spec, k)
    {
      if k !in Secrets {
        assert k != "loginPin" && k != "otp";
      }
    }
    SameFields(logged, spec);
  }

  /** Two values that masking cannot tell apart: both absent, or both
      present with the same length and, beyond two characters, the same last
      two characters. */
  predicate SameLengthAndTail(u: Value, w: Value) {
    && (u.Some? <==> w.Some?)
    && (u.Some? ==>
          && |u.value| == |w.value|
          && (|u.value| > 2 ==> u.value[|u.value| - 2..] == w.value[|w.value| - 2..]))
  }

  /** Masking hides everything but the length and, beyond two characters, the
      last two characters: values agreeing on those mask alike. */
  lemma MaskRevealsOnlyLengthAndTail(u: Value, w: Value)
    requires SameLengthAndTail(u, w)
    ensures Mask(u) == Mask(w)
  {
  }

  /** The log copy cannot tell apart two payloads that differ only in the
      hidden part of the PIN or the code. */
  lemma MaskedCopyRevealsOnlyTails(p: Payload, q: Payload)
    requires p.keys == q.keys
    requires forall k :: k !in Secrets ==> Get(p, k) == Get(q, k)
    requires forall k :: k in Secrets ==> SameLengthAndTail(Get(p, k), Get(q, k))
    ensures MaskedCopy(p) == MaskedCopy(q)
  {
    var mp, mq := MaskedCopy(p), MaskedCopy(q);
    forall k
      ensures Get(mp, k) == Get(mq, k)
    {
      if k in Secrets {
        MaskRevealsOnlyLengthAndTail(Get(p, k), Get(q, k));
      } else {
        assert Get(p, k) == Get(q, k);
      }
    }
    SameFields(mp, mq);
  }
}
