/** The web front end's sale form: how `realizar_venda` turns the submitted
    fields into the JSON payload it posts to the sales service. */
module Frontend {
  import opened Wrappers
  import opened Text

  datatype FormError =
    | MissingFields   // 'Cliente, produtos e quantidades são obrigatórios'
    | NoValidItem     // 'Informe pelo menos um produto com quantidade válida'
    | InvalidQuantity // 'Quantidade inválida'
    | BadClientId     // `int(cliente_id)` raises outside the handled block

  datatype PayloadItem = PayloadItem(productId: int, quantity: int)

  datatype Payload = Payload(clientId: int, items: seq<PayloadItem>)

  /** Python's `zip`: pairs by position, up to the shorter list. */
  function Zip(ids: seq<string>, quantities: seq<string>): (pairs: seq<(string, string)>)
    ensures |pairs| == if |ids| < |quantities| then |ids| else |quantities|
    ensures forall i :: 0 <= i < |pairs| ==> pairs[i] == (ids[i], quantities[i])
  {
    if ids == [] || quantities == [] then []
    else [(ids[0], quantities[0])] + Zip(ids[1..], quantities[1..])
  }

  /** The items the loop over the pairs builds: the quantity is parsed first;
      a pair with a non-positive quantity is skipped before its id is read;
      any parse failure abandons the whole form. */
  function Collect(pairs: seq<(string, string)>): Result<seq<PayloadItem>, FormError>
    decreases |pairs|
  {
    if pairs == [] then Success([])
    else match ParseInt(pairs[0].1)
      case None => Failure(InvalidQuantity)
      case Some(q) =>
        if q <= 0 then Collect(pairs[1..])
        else match ParseInt(pairs[0].0)
          case None => Failure(InvalidQuantity)
          case Some(id) => Prepend([PayloadItem(id, q)], Collect(pairs[1..]))
  }

  /** The whole decision of `realizar_venda` up to the post. */
  function Submission(clientId: Option<string>, ids: seq<string>, quantities: seq<string>): Result<Payload, FormError> {
    if clientId.None? || clientId.value == "" || ids == [] || quantities == [] then Failure(MissingFields)
    else match Collect(Zip(ids, quantities))
      case Failure(e) => Failure(e)
      case Success(items) =>
        if items == [] then Failure(NoValidItem)
        else match ParseInt(clientId.value)
          case None => Failure(BadClientId)
          case Some(c) => Success(Payload(c, items))
  }

  /** `realizar_venda`: the presence check, the loop over the zipped lists
      that appends each kept item, the emptiness check, and the client id. */
  method BuildPayload(clientId: Option<string>, ids: seq<string>, quantities: seq<string>)
    returns (r: Result<Payload, FormError>)
    ensures r == Submission(clientId, ids, quantities)
  {
    if clientId.None? || clientId.value == "" || |ids| == 0 || |quantities| == 0 {
      return Failure(MissingFields);
    }
    var pairs := Zip(ids, quantities);
    var items: seq<PayloadItem> := [];
    var i := 0;
    assert pairs[0..] == pairs;
    PrependEmpty(Collect(pairs));
    while i < |pairs|
      invariant 0 <= i <= |pairs|
      invariant Collect(pairs) == Prepend(items, Collect(pairs[i..]))
    {
      var (id, quantity) := pairs[i];
      assert pairs[i..][0] == pairs[i] && pairs[i..][1..] == pairs[i + 1..];
      var q := ParseInt(quantity);
      if q.None? {
        return Failure(InvalidQuantity);
      }
      if q.value <= 0 {
        i := i + 1;
        continue;
      }
      var productId := ParseInt(id);
      if productId.None? {
        return Failure(InvalidQuantity);
      }
      PrependPrepend(items, [PayloadItem(productId.value, q.value)], Collect(pairs[i + 1..]));
      items := items + [PayloadItem(productId.value, q.value)];
      i := i + 1;
    }
    assert pairs[|pairs|..] == [] && items + [] == items;
    if items == [] {
      return Failure(NoValidItem);
    }
    var c := ParseInt(clientId.value);
    if c.None? {
      return Failure(BadClientId);
    }
    return Success(Payload(c.value, items));
  }

  // ---------------------------------------------------------------------
  // Properties
  // ---------------------------------------------------------------------

  /** A pair the loop keeps: its quantity parses to a positive integer. */
  predicate Kept(pair: (string, string)) {
    ParseInt(pair.1).Some? && ParseInt(pair.1).value > 0
  }

  /** The kept pairs, in their original relative order. */
  function Survivors(pairs: seq<(string, string)>): (s: seq<(string, string)>)
    ensures |s| <= |pairs|
    ensures forall j :: 0 <= j < |s| ==> Kept(s[j]) && s[j] in pairs
    decreases |pairs|
  {
    if pairs == [] then []
    else if Kept(pairs[0]) then [pairs[0]] + Survivors(pairs[1..])
    else Survivors(pairs[1..])
  }

  /** Filtering a concatenation filters each part: kept pairs keep their
      relative order. */
  lemma {:induction false} SurvivorsAppend(a: seq<(string, string)>, b: seq<(string, string)>)
    ensures Survivors(a + b) == Survivors(a) + Survivors(b)
    decreases |a|
  {
    if a == [] {
      assert a + b == b;
    } else {
      assert (a + b)[0] == a[0] && (a + b)[1..] == a[1..] + b;
      SurvivorsAppend(a[1..], b);
    }
  }

  /** No kept pair is lost. */
  lemma {:induction false} SurvivorsComplete(pairs: seq<(string, string)>)
    ensures forall i :: 0 <= i < |pairs| && Kept(pairs[i]) ==> pairs[i] in Survivors(pairs)
    decreases |pairs|
  {
    if pairs != [] {
      SurvivorsComplete(pairs[1..]);
      assert forall i :: 1 <= i < |pairs| ==> pairs[i] == pairs[1..][i - 1];
    }
  }

  /** The form is accepted exactly when every quantity parses and every kept
      pair's id parses; the items are then the kept pairs, parsed, in order,
      and every quantity is positive. Any failure is InvalidQuantity. */
  lemma {:induction false} CollectIsParsedSurvivors(pairs: seq<(string, string)>)
    ensures Collect(pairs).Success?
        <==> forall i :: 0 <= i < |pairs| ==>
               ParseInt(pairs[i].1).Some? && (Kept(pairs[i]) ==> ParseInt(pairs[i].0).Some?)
    ensures Collect(pairs).Failure? ==> Collect(pairs).error == InvalidQuantity
    ensures Collect(pairs).Success? ==>
              var items := Collect(pairs).value;
              var kept := Survivors(pairs);
              && |items| == |kept|
              && forall j :: 0 <= j < |items| ==>
                   && ParseInt(kept[j].0).Some?
                   && items[j] == PayloadItem(ParseInt(kept[j].0).value, ParseInt(kept[j].1).value)
                   && items[j].quantity > 0
    decreases |pairs|
  {
    if pairs != [] {
      var rest := pairs[1..];
      CollectIsParsedSurvivors(rest);
      assert forall i :: 1 <= i < |pairs| ==> pairs[i] == rest[i - 1];
      if !(forall i :: 0 <= i < |pairs| ==>
             ParseInt(pairs[i].1).Some? && (Kept(pairs[i]) ==> ParseInt(pairs[i].0).Some?)) {
        var k :| 0 <= k < |pairs| && !(ParseInt(pairs[k].1).Some? && (Kept(pairs[k]) ==> ParseInt(pairs[k].0).Some?));
        if k > 0 {
          assert rest[k - 1] == pairs[k];
        }
      }
      if Collect(pairs).Success? && Kept(pairs[0]) {
        var items := Collect(pairs).value;
        assert items == [items[0]] + Collect(rest).value;
        assert Survivors(pairs) == [pairs[0]] + Survivors(rest);
      }
    }
  }

  /** A pair dropped for its quantity has its id never read: any id in its
      place gives the same result. */
  lemma {:induction false} DroppedPairIdIgnored(pairs: seq<(string, string)>, k: nat, otherId: string)
    requires k < |pairs|
    requires ParseInt(pairs[k].1).Some? && ParseInt(pairs[k].1).value <= 0
    ensures Collect(pairs[k := (otherId, pairs[k].1)]) == Collect(pairs)
    decreases k
  {
    var changed := pairs[k := (otherId, pairs[k].1)];
    if k > 0 {
      DroppedPairIdIgnored(pairs[1..], k - 1, otherId);
      assert changed[1..] == pairs[1..][k - 1 := (otherId, pairs[k].1)];
    } else {
      assert changed[1..] == pairs[1..];
    }
  }

  /** Entries past the end of the shorter list play no part. */
  lemma ExtraEntriesIgnored(clientId: Option<string>, ids: seq<string>, quantities: seq<string>, extra: seq<string>)
    ensures |ids| >= |quantities| ==>
              Submission(clientId, ids + extra, quantities) == Submission(clientId, ids, quantities)
    ensures |quantities| >= |ids| ==>
              Submission(clientId, ids, quantities + extra) == Submission(clientId, ids, quantities)
  {
    if |ids| >= |quantities| {
      assert Zip(ids + extra, quantities) == Zip(ids, quantities);
      if ids == [] {
        assert quantities == [];
      }
    }
    if |quantities| >= |ids| {
      assert Zip(ids, quantities + extra) == Zip(ids, quantities);
      if quantities == [] {
        assert ids == [];
      }
    }
  }

  /** The presence check: a missing or empty client id, or no product ids or
      no quantities at all, refuses the form before anything is parsed; no
      later check gives that error. */
  lemma MissingFieldsExactly(clientId: Option<string>, ids: seq<string>, quantities: seq<string>)
    ensures Submission(clientId, ids, quantities) == Failure(MissingFields)
        <==> clientId.None? || clientId.value == "" || ids == [] || quantities == []
  {
    CollectIsParsedSurvivors(Zip(ids, quantities));
  }

  /** When every quantity parses but none is positive, nothing survives and
      the form is refused with NoValidItem, whatever the ids are. */
  lemma NothingKeptIsRejected(clientId: Option<string>, ids: seq<string>, quantities: seq<string>)
    requires clientId.Some? && clientId.value != "" && ids != [] && quantities != []
    requires forall i :: 0 <= i < |ids| && i < |quantities| ==>
               ParseInt(quantities[i]).Some? && ParseInt(quantities[i]).value <= 0
    ensures Submission(clientId, ids, quantities) == Failure(NoValidItem)
  {
    var pairs := Zip(ids, quantities);
    CollectIsParsedSurvivors(pairs);
    NoSurvivors(pairs);
  }

  lemma {:induction false} NoSurvivors(pairs: seq<(string, string)>)
    requires forall i :: 0 <= i < |pairs| ==> !Kept(pairs[i])
    ensures Survivors(pairs) == []
    decreases |pairs|
  {
    if pairs != [] {
      assert forall i :: 0 <= i < |pairs| - 1 ==> pairs[1..][i] == pairs[i + 1];
      NoSurvivors(pairs[1..]);
    }
  }

  /** An accepted form yields a non-empty payload whose every quantity is positive. */
  lemma AcceptedPayloadIsPositive(clientId: Option<string>, ids: seq<string>, quantities: seq<string>)
    requires Submission(clientId, ids, quantities).Success?
    ensures var p := Submission(clientId, ids, quantities).value;
            && |p.items| > 0
            && (forall j :: 0 <= j < |p.items| ==> p.items[j].quantity > 0)
            && Some(p.clientId) == ParseInt(clientId.value)
  {
    CollectIsParsedSurvivors(Zip(ids, quantities));
  }
}
