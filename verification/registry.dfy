/** Property registry entry points: add-property, update-property and the
    whole-property sale buy-property. */
module Registry {
  import opened Types
  import opened Fees
  import opened ContractState

  /** `add-property`: the contract owner registers a property. The new id is
      the number of properties registered before; the record starts neither
      tokenized nor for sale. A paused contract answers err 102, another
      caller err 100, a zero price (or area) err 109. */
  function AddProperty(s: State, caller: Principal, price: nat, location: string,
                       category: string, area: nat, description: string): (r: Result<Committed<nat>>)
    ensures r.Ok? <==> !s.paused && caller == s.owner && price > 0 && area > 0
    ensures s.paused ==> r == Err(Unauthorized)
    ensures !s.paused && caller != s.owner ==> r == Err(OwnerOnly)
    ensures !s.paused && caller == s.owner && (price == 0 || area == 0) ==> r == Err(InvalidPrice)
    ensures r.Ok? ==>
      var c := r.value;
      && c.value == |s.properties|
      && |c.state.properties| == |s.properties| + 1
      && c.state.properties[..|s.properties|] == s.properties
      && c.state.properties[c.value] == Property(caller, price, location, category, area, description, false, false)
      && c.state == s.(properties := c.state.properties)
      && c.payments == []
  {
    if s.paused then Err(Unauthorized)
    else if caller != s.owner then Err(OwnerOnly)
    else if price == 0 || area == 0 then Err(InvalidPrice)
    else
      var p := Property(caller, price, location, category, area, description, false, false);
      Ok(Committed(s.(properties := s.properties + [p]), |s.properties|, []))
  }

  /** `update-property`: the current owner of property `id` sets its price,
      for-sale flag and description; every other field and every other
      property is untouched. */
  function UpdateProperty(s: State, caller: Principal, id: nat, newPrice: nat,
                          forSale: bool, newDescription: string): (r: Result<Committed<bool>>)
    ensures r.Ok? <==>
      !s.paused && id < |s.properties| && caller == s.properties[id].owner && newPrice > 0
    ensures s.paused ==> r == Err(Unauthorized)
    ensures !s.paused && id >= |s.properties| ==> r == Err(NotFound)
    ensures !s.paused && id < |s.properties| && caller != s.properties[id].owner ==> r == Err(Unauthorized)
    ensures !s.paused && id < |s.properties| && caller == s.properties[id].owner && newPrice == 0 ==>
      r == Err(InvalidPrice)
    ensures r.Ok? ==> |r.value.state.properties| == |s.properties|
    ensures r.Ok? ==>
      var c := r.value;
      var before, after := s.properties[id], c.state.properties[id];
      && c.value
      && after.price == newPrice && after.forSale == forSale && after.description == newDescription
      && after.owner == before.owner && after.tokenized == before.tokenized && after.area == before.area
      && after.location == before.location && after.category == before.category
      && (forall j :: 0 <= j < |s.properties| && j != id ==> c.state.properties[j] == s.properties[j])
      && c.state == s.(properties := c.state.properties)
      && c.payments == []
  {
    if s.paused then Err(Unauthorized)
    else if id >= |s.properties| then Err(NotFound)
    else
      var p := s.properties[id];
      if caller != p.owner then Err(Unauthorized)
      else if newPrice == 0 then Err(InvalidPrice)
      else
        var p' := p.(price := newPrice, forSale := forSale, description := newDescription);
        Ok(Committed(s.(properties := s.properties[id := p']), true, []))
  }

  /** `buy-property`: the caller buys a property offered for sale. The price
      goes to the seller and a 2.5% fee on top of it to the treasury; the
      caller becomes the owner, the offer is withdrawn and a PROPERTY_SALE
      entry with zero tokens is logged. */
  function BuyProperty(s: State, caller: Principal, id: nat): (r: Result<Committed<bool>>)
    ensures r.Ok? <==> !s.paused && id < |s.properties| && s.properties[id].forSale
    ensures s.paused ==> r == Err(Unauthorized)
    ensures !s.paused && id >= |s.properties| ==> r == Err(NotFound)
    ensures !s.paused && id < |s.properties| && !s.properties[id].forSale ==> r == Err(NotForSale)
    ensures r.Ok? ==> |r.value.state.properties| == |s.properties|
    ensures r.Ok? ==>
      var c := r.value;
      var before, after := s.properties[id], c.state.properties[id];
      && c.value
      && after == before.(owner := caller, forSale := false)
      && (forall j :: 0 <= j < |s.properties| && j != id ==> c.state.properties[j] == s.properties[j])
      && c.state.revenue == s.revenue + Fee(before.price)
      && c.state.log == s.log + [TxRecord(id, caller, 0, PropertySale)]
      && c.state == s.(properties := c.state.properties, revenue := c.state.revenue, log := c.state.log)
      && c.payments == [Payment(User(caller), User(before.owner), before.price),
                        Payment(User(caller), Treasury, Fee(before.price))]
  {
    if s.paused then Err(Unauthorized)
    else if id >= |s.properties| then Err(NotFound)
    else
      var p := s.properties[id];
      if !p.forSale then Err(NotForSale)
      else
        var fee := Fee(p.price);
        var s' := s.(properties := s.properties[id := p.(owner := caller, forSale := false)],
                     revenue := s.revenue + fee,
                     log := s.log + [TxRecord(id, caller, 0, PropertySale)]);
        Ok(Committed(s', true, [Payment(User(caller), User(p.owner), p.price),
                                Payment(User(caller), Treasury, fee)]))
  }
}
