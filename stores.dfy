/**
 * The three MongoDB collections the backend writes, each as an object whose
 * documents are kept in natural (insertion) order. Handlers receive the
 * collection they use and change it only through these methods.
 */
module Stores {
  import opened Common
  import opened Model

  // ---------------------------------------------------------------------
  // Lookups
  // ---------------------------------------------------------------------

  function FindOrder(docs: seq<Order>, id: string): (r: Option<Order>)
    ensures r.Some? ==> r.value in docs && r.value.id == id
    ensures r.None? ==> forall o :: o in docs ==> o.id != id
  {
    if docs == [] then None
    else if docs[0].id == id then Some(docs[0])
    else FindOrder(docs[1..], id)
  }

  function FindUser(docs: seq<UserDoc>, id: string): (r: Option<UserDoc>)
    ensures r.Some? ==> r.value in docs && r.value.id == id
    ensures r.None? ==> forall u :: u in docs ==> u.id != id
  {
    if docs == [] then None
    else if docs[0].id == id then Some(docs[0])
    else FindUser(docs[1..], id)
  }

  /** `User.findOne({ email })`. */
  function FindUserByEmail(docs: seq<UserDoc>, email: string): (r: Option<UserDoc>)
    ensures r.Some? ==> r.value in docs && r.value.email == email
    ensures r.None? ==> forall u :: u in docs ==> u.email != email
  {
    if docs == [] then None
    else if docs[0].email == email then Some(docs[0])
    else FindUserByEmail(docs[1..], email)
  }

  /** Some user other than `id` already holds `email` (the unique index would refuse it). */
  predicate EmailTakenByOther(docs: seq<UserDoc>, id: string, email: string) {
    exists u :: u in docs && u.email == email && u.id != id
  }

  function FindProduct(docs: seq<ProductDoc>, id: string): (r: Option<ProductDoc>)
    ensures r.Some? ==> r.value in docs && r.value.id == id
    ensures r.None? ==> forall p :: p in docs ==> p.id != id
  {
    if docs == [] then None
    else if docs[0].id == id then Some(docs[0])
    else FindProduct(docs[1..], id)
  }

  /** The update body with no field at all. */
  const NO_FIELDS: ProductFields := ProductFields(None, None, None, None, None)

  /** `$set` of the given fields: a present field replaces, a missing one is left
      alone. An empty update keeps the stored fields, and a complete one
      replaces them all. */
  function MergeFields(old_: ProductFields, upd: ProductFields): (r: ProductFields)
    ensures upd == NO_FIELDS ==> r == old_
    ensures upd.name.Some? && upd.price.Some? && upd.stock.Some? && upd.description.Some? && upd.image.Some? ==>
              r == upd
  {
    ProductFields(
      if upd.name.Some? then upd.name else old_.name,
      if upd.price.Some? then upd.price else old_.price,
      if upd.stock.Some? then upd.stock else old_.stock,
      if upd.description.Some? then upd.description else old_.description,
      if upd.image.Some? then upd.image else old_.image)
  }

  /** Two updates in a row do what one update does that carries the second's
      fields over the first's; in particular repeating an update changes nothing. */
  lemma MergeFieldsCompose(stored: ProductFields, first: ProductFields, second: ProductFields)
    ensures MergeFields(MergeFields(stored, first), second) == MergeFields(stored, MergeFields(first, second))
    ensures MergeFields(MergeFields(stored, first), first) == MergeFields(stored, first)
  {
  }

  // ---------------------------------------------------------------------
  // orders
  // ---------------------------------------------------------------------

  ghost predicate DistinctOrderIds(docs: seq<Order>) {
    forall i, j :: 0 <= i < j < |docs| ==> docs[i].id != docs[j].id
  }

  /** The `orders` collection and the module-level `db` handle of the server:
      `connected` is false while the handle is still unset. */
  class OrderStore {
    var docs: seq<Order>
    var connected: bool

    ghost predicate Valid()
      reads this
    {
      DistinctOrderIds(docs)
    }

    constructor (docs: seq<Order>, connected: bool)
      requires DistinctOrderIds(docs)
      ensures Valid() && this.docs == docs && this.connected == connected
    {
      this.docs := docs;
      this.connected := connected;
    }

    predicate HasId(id: string)
      reads this
    {
      exists o :: o in docs && o.id == id
    }

    /** `insertOne`: the driver supplies a fresh `_id`. */
    method InsertOne(o: Order)
      requires Valid() && !HasId(o.id)
      modifies this`docs
      ensures Valid()
      ensures docs == old(docs) + [o]
    {
      docs := docs + [o];
    }

    /** `updateOne({ _id: id }, { $set: { status, paymentDetails } })`. */
    method SetPaymentOutcome(id: string, status: Status, details: Option<GatewayPayment>)
      requires Valid()
      modifies this`docs
      ensures Valid()
      ensures |docs| == |old(docs)|
      ensures forall i :: 0 <= i < |docs| ==>
        docs[i] == if old(docs)[i].id == id
                   then old(docs)[i].(status := status, paymentDetails := details)
                   else old(docs)[i]
    {
      var d := docs;
      docs := seq(|d|, i requires 0 <= i < |d| =>
        if d[i].id == id then d[i].(status := status, paymentDetails := details) else d[i]);
    }

    /** `findByIdAndUpdate(id, { status })`. */
    method SetStatus(id: string, status: Status)
      requires Valid()
      modifies this`docs
      ensures Valid()
      ensures |docs| == |old(docs)|
      ensures forall i :: 0 <= i < |docs| ==>
        docs[i] == if old(docs)[i].id == id then old(docs)[i].(status := status) else old(docs)[i]
    {
      var d := docs;
      docs := seq(|d|, i requires 0 <= i < |d| =>
        if d[i].id == id then d[i].(status := status) else d[i]);
    }
  }

  // ---------------------------------------------------------------------
  // users
  // ---------------------------------------------------------------------

  /** Ids are unique, and so are emails (the schema's unique index). */
  ghost predicate UsersWellFormed(docs: seq<UserDoc>) {
    forall i, j :: 0 <= i < j < |docs| ==> docs[i].id != docs[j].id && docs[i].email != docs[j].email
  }

  class UserStore {
    var docs: seq<UserDoc>

    ghost predicate Valid()
      reads this
    {
      UsersWellFormed(docs)
    }

    constructor (docs: seq<UserDoc>)
      requires UsersWellFormed(docs)
      ensures Valid() && this.docs == docs
    {
      this.docs := docs;
    }

    predicate HasId(id: string)
      reads this
    {
      exists u :: u in docs && u.id == id
    }

    predicate HasEmail(email: string)
      reads this
    {
      exists u :: u in docs && u.email == email
    }

    method Insert(u: UserDoc)
      requires Valid() && !HasId(u.id) && !HasEmail(u.email)
      modifies this
      ensures Valid()
      ensures docs == old(docs) + [u]
    {
      docs := docs + [u];
    }

    /** Overwrites the document with id `u.id`; the new email may not belong to another user. */
    method Replace(u: UserDoc)
      requires Valid() && !EmailTakenByOther(docs, u.id, u.email)
      modifies this
      ensures Valid()
      ensures |docs| == |old(docs)|
      ensures forall i :: 0 <= i < |docs| ==> docs[i] == if old(docs)[i].id == u.id then u else old(docs)[i]
    {
      var d := docs;
      var r := seq(|d|, i requires 0 <= i < |d| => if d[i].id == u.id then u else d[i]);
      forall i, j | 0 <= i < j < |r| ensures r[i].id != r[j].id && r[i].email != r[j].email {
        var a, b := d[i], d[j];
        if a.id == u.id {
          assert b in d;
        } else if b.id == u.id {
          assert a in d;
        }
      }
      docs := r;
    }

    /** `findByIdAndDelete(id)`; nothing happens when no document has that id. */
    method Delete(id: string)
      requires Valid()
      modifies this
      ensures Valid()
      ensures docs == RemoveUser(old(docs), id)
    {
      RemoveUserWellFormed(docs, id);
      docs := RemoveUser(docs, id);
    }
  }

  /** The collection without the document `id`, order kept. */
  function RemoveUser(docs: seq<UserDoc>, id: string): (r: seq<UserDoc>)
    ensures forall u :: u in r <==> u in docs && u.id != id
    ensures |r| <= |docs|
  {
    if docs == [] then []
    else if docs[0].id == id then RemoveUser(docs[1..], id)
    else [docs[0]] + RemoveUser(docs[1..], id)
  }

  lemma {:induction false} RemoveUserWellFormed(docs: seq<UserDoc>, id: string)
    requires UsersWellFormed(docs)
    ensures UsersWellFormed(RemoveUser(docs, id))
  {
    if docs != [] {
      RemoveUserWellFormed(docs[1..], id);
      var rest := RemoveUser(docs[1..], id);
      forall u | u in rest ensures u.id != docs[0].id && u.email != docs[0].email {
        var k :| 0 <= k < |docs[1..]| && docs[1..][k] == u;
        assert docs[k + 1] == u;
      }
    }
  }

  // ---------------------------------------------------------------------
  // products
  // ---------------------------------------------------------------------

  ghost predicate DistinctProductIds(docs: seq<ProductDoc>) {
    forall i, j :: 0 <= i < j < |docs| ==> docs[i].id != docs[j].id
  }

  class ProductStore {
    var docs: seq<ProductDoc>

    ghost predicate Valid()
      reads this
    {
      DistinctProductIds(docs)
    }

    constructor (docs: seq<ProductDoc>)
      requires DistinctProductIds(docs)
      ensures Valid() && this.docs == docs
    {
      this.docs := docs;
    }

    predicate HasId(id: string)
      reads this
    {
      exists p :: p in docs && p.id == id
    }

    method Insert(p: ProductDoc)
      requires Valid() && !HasId(p.id)
      modifies this
      ensures Valid()
      ensures docs == old(docs) + [p]
    {
      docs := docs + [p];
    }

    /** `findByIdAndUpdate(id, fields)`. */
    method Update(id: string, upd: ProductFields)
      requires Valid()
      modifies this
      ensures Valid()
      ensures |docs| == |old(docs)|
      ensures forall i :: 0 <= i < |docs| ==>
        docs[i] == if old(docs)[i].id == id
                   then ProductDoc(id, MergeFields(old(docs)[i].fields, upd))
                   else old(docs)[i]
    {
      var d := docs;
      docs := seq(|d|, i requires 0 <= i < |d| =>
        if d[i].id == id then ProductDoc(id, MergeFields(d[i].fields, upd)) else d[i]);
    }

    /** `findByIdAndDelete(id)`. */
    method Delete(id: string)
      requires Valid()
      modifies this
      ensures Valid()
      ensures docs == RemoveProduct(old(docs), id)
    {
      RemoveProductDistinct(docs, id);
      docs := RemoveProduct(docs, id);
    }
  }

  function RemoveProduct(docs: seq<ProductDoc>, id: string): (r: seq<ProductDoc>)
    ensures forall p :: p in r <==> p in docs && p.id != id
    ensures |r| <= |docs|
  {
    if docs == [] then []
    else if docs[0].id == id then RemoveProduct(docs[1..], id)
    else [docs[0]] + RemoveProduct(docs[1..], id)
  }

  lemma {:induction false} RemoveProductDistinct(docs: seq<ProductDoc>, id: string)
    requires DistinctProductIds(docs)
    ensures DistinctProductIds(RemoveProduct(docs, id))
  {
    if docs != [] {
      RemoveProductDistinct(docs[1..], id);
      var rest := RemoveProduct(docs[1..], id);
      forall p | p in rest ensures p.id != docs[0].id {
        var k :| 0 <= k < |docs[1..]| && docs[1..][k] == p;
        assert docs[k + 1] == p;
      }
    }
  }
}
