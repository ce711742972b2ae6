/** The reaction bar under a message (MessageReactions.jsx): the tally of
    the reactions users have left, one button per distinct reaction, and
    the picker that sends a new one. `currentReactions` maps each user to
    the reaction they chose; the model is given its values in the order
    `Object.values` lists them. */
module MessageReactions {
  import opened ChatTypes
  import opened Registry

  /** The picker's choices. */
  const Reactions: seq<string> := ["\U{1F44D}", "❤️", "\U{1F602}", "\U{1F62E}", "\U{1F622}", "\U{1F621}"]

  /** The distinct elements of `s`, in the order of their first occurrence:
      the key order of the object the tally builds. */
  function Uniq(s: seq<string>): seq<string> {
    if s == [] then []
    else
      var u := Uniq(s[..|s| - 1]);
      if s[|s| - 1] in u then u else u + [s[|s| - 1]]
  }

  /** The sum of the counts of `keys`. */
  function Total(keys: seq<string>, counts: map<string, nat>): int
    requires forall k :: k in keys ==> k in counts
  {
    if keys == [] then 0
    else Total(keys[..|keys| - 1], counts) + counts[keys[|keys| - 1]]
  }

  /** Every value appears once among the distinct elements, and nothing else does. */
  lemma {:induction false} UniqExactly(s: seq<string>)
    ensures Distinct(Uniq(s))
    ensures forall x :: x in Uniq(s) <==> x in s
  {
    if s != [] {
      var init := s[..|s| - 1];
      UniqExactly(init);
      assert s == init + [s[|s| - 1]];
    }
  }

  lemma TotalSnoc(keys: seq<string>, counts: map<string, nat>, v: string)
    requires forall k :: k in keys ==> k in counts
    requires v in counts
    ensures Total(keys + [v], counts) == Total(keys, counts) + counts[v]
  {
    assert (keys + [v])[..|keys|] == keys;
  }

  /** Setting the count of a reaction not among `keys` leaves their total alone. */
  lemma {:induction false} TotalFrame(keys: seq<string>, counts: map<string, nat>, v: string, n: nat)
    requires forall k :: k in keys ==> k in counts
    requires v !in keys
    ensures Total(keys, counts[v := n]) == Total(keys, counts)
  {
    if keys != [] {
      TotalFrame(keys[..|keys| - 1], counts, v, n);
    }
  }

  /** One more of a reaction among distinct `keys` adds one to their total. */
  lemma {:induction false} TotalBump(keys: seq<string>, counts: map<string, nat>, v: string)
    requires forall k :: k in keys ==> k in counts
    requires Distinct(keys) && v in keys
    ensures Total(keys, counts[v := counts[v] + 1]) == Total(keys, counts) + 1
  {
    var init := keys[..|keys| - 1];
    var last := keys[|keys| - 1];
    assert keys == init + [last];
    if last == v {
      assert v !in init;
      TotalFrame(init, counts, v, counts[v] + 1);
    } else {
      TotalBump(init, counts, v);
    }
  }

  /** `counts` and `keys` are the tally of `values`. */
  ghost predicate TallyOf(values: seq<string>, counts: map<string, nat>, keys: seq<string>) {
    && keys == Uniq(values) && Distinct(keys)
    && (forall r :: r in keys <==> r in counts)
    && (forall r :: r in counts <==> r in values)
    && (forall r :: r in counts ==> counts[r] == multiset(values)[r])
    && Total(keys, counts) == |values|
  }

  lemma TallyEmpty()
    ensures TallyOf([], map[], [])
  {
  }

  /** One more use of a reaction already tallied. */
  lemma TallyRepeat(values: seq<string>, counts: map<string, nat>, keys: seq<string>, v: string)
    requires TallyOf(values, counts, keys) && v in counts
    ensures TallyOf(values + [v], counts[v := counts[v] + 1], keys)
  {
    TallyRepeatParts(values, counts, keys, v);
    TallyPack(values + [v], counts[v := counts[v] + 1], keys);
  }

  lemma TallyRepeatParts(values: seq<string>, counts: map<string, nat>, keys: seq<string>, v: string)
    requires TallyOf(values, counts, keys) && v in counts
    ensures Uniq(values + [v]) == keys && Distinct(keys)
    ensures forall r :: r in keys <==> r in counts[v := counts[v] + 1]
    ensures forall r :: r in counts[v := counts[v] + 1] <==> r in values + [v]
    ensures forall r :: r in counts[v := counts[v] + 1] ==> counts[v := counts[v] + 1][r] == multiset(values + [v])[r]
    ensures Total(keys, counts[v := counts[v] + 1]) == |values + [v]|
  {
    UniqSnoc(values, v);
    CountSnoc(values, v);
    TotalBump(keys, counts, v);
  }

  /** The first use of a reaction. */
  lemma TallyFirst(values: seq<string>, counts: map<string, nat>, keys: seq<string>, v: string)
    requires TallyOf(values, counts, keys) && v !in counts
    ensures TallyOf(values + [v], counts[v := 1], keys + [v])
  {
    TallyFirstParts(values, counts, keys, v);
    TallyPack(values + [v], counts[v := 1], keys + [v]);
  }

  lemma TallyFirstParts(values: seq<string>, counts: map<string, nat>, keys: seq<string>, v: string)
    requires TallyOf(values, counts, keys) && v !in counts
    ensures Uniq(values + [v]) == keys + [v] && Distinct(keys + [v])
    ensures forall r :: r in keys + [v] <==> r in counts[v := 1]
    ensures forall r :: r in counts[v := 1] <==> r in values + [v]
    ensures forall r :: r in counts[v := 1] ==> counts[v := 1][r] == multiset(values + [v])[r]
    ensures Total(keys + [v], counts[v := 1]) == |values + [v]|
  {
    UniqSnoc(values, v);
    CountSnoc(values, v);
    DistinctSnoc(keys, v);
    TotalFrame(keys, counts, v, 1);
    TotalSnoc(keys, counts[v := 1], v);
  }

  lemma UniqSnoc(values: seq<string>, v: string)
    ensures Uniq(values + [v]) == if v in Uniq(values) then Uniq(values) else Uniq(values) + [v]
  {
    assert (values + [v])[..|values|] == values;
  }

  lemma CountSnoc(values: seq<string>, v: string)
    ensures forall r :: multiset(values + [v])[r] == multiset(values)[r] + (if r == v then 1 else 0)
  {
    assert multiset(values + [v]) == multiset(values) + multiset{v};
  }

  lemma TallyPack(values: seq<string>, counts: map<string, nat>, keys: seq<string>)
    requires keys == Uniq(values) && Distinct(keys)
    requires forall r :: r in keys <==> r in counts
    requires forall r :: r in counts <==> r in values
    requires forall r :: r in counts ==> counts[r] == multiset(values)[r]
    requires Total(keys, counts) == |values|
    ensures TallyOf(values, counts, keys)
  {
  }

  lemma DistinctSnoc(keys: seq<string>, v: string)
    requires Distinct(keys) && v !in keys
    ensures Distinct(keys + [v])
  {
    var ks := keys + [v];
    forall i, j | 0 <= i < j < |ks| ensures ks[i] != ks[j] {
      if j == |keys| {
        assert ks[i] == keys[i];
      } else {
        assert ks[i] == keys[i] && ks[j] == keys[j];
      }
    }
  }

  /** One step of the tally loop keeps the tally exact. */
  lemma TallyStep(values: seq<string>, i: nat, counts: map<string, nat>, keys: seq<string>)
    requires i < |values| && TallyOf(values[..i], counts, keys)
    ensures var v := values[i];
      if v in counts then TallyOf(values[..i + 1], counts[v := counts[v] + 1], keys)
      else TallyOf(values[..i + 1], counts[v := 1], keys + [v])
  {
    assert values[..i + 1] == values[..i] + [values[i]];
    if values[i] in counts {
      TallyRepeat(values[..i], counts, keys, values[i]);
    } else {
      TallyFirst(values[..i], counts, keys, values[i]);
    }
  }

  /** `reactionCounts` and the order of `Object.entries` over it: each
      distinct reaction once, in first-occurrence order, with the number of
      users who chose it; the counts add up to the number of users. */
  method Tally(values: seq<string>) returns (counts: map<string, nat>, keys: seq<string>)
    ensures keys == Uniq(values)
    ensures forall r :: r in keys <==> r in counts
    ensures forall r :: r in counts <==> r in values
    ensures forall r :: r in counts ==> counts[r] == multiset(values)[r]
    ensures Total(keys, counts) == |values|
  {
    counts := map[];
    keys := [];
    TallyEmpty();
    var i := 0;
    while i < |values|
      invariant 0 <= i <= |values|
      invariant TallyOf(values[..i], counts, keys)
    {
      var reaction := values[i];
      TallyStep(values, i, counts, keys);
      if reaction in counts {
        counts := counts[reaction := counts[reaction] + 1];
      } else {
        counts := counts[reaction := 1];
        keys := keys + [reaction];
      }
      i := i + 1;
    }
    TallyDone(values, counts, keys);
  }

  lemma TallyDone(values: seq<string>, counts: map<string, nat>, keys: seq<string>)
    requires TallyOf(values[..|values|], counts, keys)
    ensures keys == Uniq(values)
    ensures forall r :: r in keys <==> r in counts
    ensures forall r :: r in counts <==> r in values
    ensures forall r :: r in counts ==> counts[r] == multiset(values)[r]
    ensures Total(keys, counts) == |values|
  {
    assert values[..|values|] == values;
  }

  /** The 'add_message_reaction' payload. */
  datatype ReactionEvent = ReactionEvent(messageId: int, reaction: string, user: string)

  class ReactionPicker {
    var showPicker: bool

    constructor ()
      ensures !showPicker
    {
      showPicker := false;
    }

    /** The "+" button. */
    method Toggle()
      modifies this
      ensures showPicker == !old(showPicker)
    {
      showPicker := !showPicker;
    }

    /** `handleReaction`: nothing without a socket or a signed-in user;
        otherwise the reaction is sent under the user's name and the picker
        closes. */
    method HandleReaction(hasSocket: bool, currentUser: Option<User>, messageId: int, reaction: string)
      returns (sent: Option<ReactionEvent>)
      modifies this
      ensures !hasSocket || currentUser.None? ==> sent == None && showPicker == old(showPicker)
      ensures hasSocket && currentUser.Some? ==>
        sent == Some(ReactionEvent(messageId, reaction, currentUser.value.username)) && !showPicker
    {
      if !hasSocket || currentUser.None? {
        return None;
      }
      sent := Some(ReactionEvent(messageId, reaction, currentUser.value.username));
      showPicker := false;
    }
  }
}
