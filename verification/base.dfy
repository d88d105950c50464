/** Vocabulary shared by both conversation flows: optional values, the result
    of a call into an external collaborator, and the user ids that key the
    per-flow session maps. */
module Base {

  datatype Option<+T> = None | Some(value: T)

  /** What an awaited call into a collaborator (the payment API or the
      profile store) produced: a value, or a thrown error. */
  datatype Call<+T> = Returned(value: T) | Threw

  /** A chat user's numeric id. The handlers test `ctx.from?.id` for
      truthiness, so an absent id and the id 0 are treated alike; the model
      writes both as 0. */
  type UserId = int

  predicate Identified(uid: UserId) {
    uid != 0
  }

  /** The entry of `u` in a session map, if any. */
  function Lookup<S>(m: map<UserId, S>, u: UserId): (r: Option<S>)
    ensures r.Some? <==> u in m
    ensures u in m ==> r.value == m[u]
  {
    if u in m then Some(m[u]) else None
  }

  /** `m'` agrees with `m` on every user other than `uid`: a handler keyed on
      the sender's id leaves every other user's entry alone. */
  ghost predicate OthersUnchanged<S>(m: map<UserId, S>, m': map<UserId, S>, uid: UserId) {
    m' - {uid} == m - {uid}
  }

  /** Writing the entry of `uid` changes no one else's. */
  lemma StoreFrame<S>(m: map<UserId, S>, uid: UserId, v: S)
    ensures OthersUnchanged(m, m[uid := v], uid)
  {
    assert m[uid := v] - {uid} == m - {uid};
  }

  /** Removing the entry of `uid` changes no one else's. */
  lemma RemoveFrame<S>(m: map<UserId, S>, uid: UserId)
    ensures OthersUnchanged(m, m - {uid}, uid)
  {
    assert m - {uid} - {uid} == m - {uid};
  }

  /** Under `OthersUnchanged`, every other user sees the same entry. */
  lemma OthersSeeNoChange<S>(m: map<UserId, S>, m': map<UserId, S>, uid: UserId, u: UserId)
    requires OthersUnchanged(m, m', uid) && u != uid
    ensures Lookup(m', u) == Lookup(m, u)
  {
    assert u in m' <==> u in m' - {uid};
    assert u in m <==> u in m - {uid};
    if u in m {
      assert m'[u] == (m' - {uid})[u] == (m - {uid})[u] == m[u];
    }
  }

  /** JavaScript's `x || ""` on an optional string: an absent or empty
      string both give "". */
  function OrEmpty(o: Option<string>): (r: string)
    ensures o.Some? ==> r == o.value
    ensures o.None? ==> r == ""
  {
    match o
    case Some(s) => s
    case None => ""
  }

  /** JavaScript truthiness of an optional string. */
  predicate NonEmpty(o: Option<string>) {
    o.Some? && o.value != ""
  }

  /** JavaScript truthiness of an optional number (0 is falsy; NaN has no
      counterpart among the reals). */
  predicate NonZero(o: Option<real>) {
    o.Some? && o.value != 0.0
  }
}
