/**
 * Brand creation: `POST /api/v1/brands`. A user's brands have distinct names; the
 * endpoint looks for a brand of the caller with the requested name and inserts a new
 * one only when there is none.
 *
 * `Create` is the specification of the request; `Store.CreateBrand` the handler.
 */
module Brands {
  import opened Wrappers
  import opened Domain

  const MISSING_NAME := "Missing required field: name"
  const DUPLICATE := "Brand with this name already exists"

  /** `findFirst({ where: { userId, name } })` finds a row. */
  predicate NameTaken(brands: map<BrandId, Brand>, userId: UserId, name: string) {
    exists id :: id in brands && brands[id].userId == userId && brands[id].name == name
  }

  /** No user has two brands of the same name. */
  predicate UniqueNames(brands: map<BrandId, Brand>) {
    forall a, b :: a in brands && b in brands && brands[a].userId == brands[b].userId && brands[a].name == brands[b].name
      ==> a == b
  }

  /** Every brand is stored under its own id. */
  predicate KeyedById(brands: map<BrandId, Brand>) {
    forall id :: id in brands ==> brands[id].id == id
  }

  /**
   * The endpoint on the brand table, for the authenticated user `userId`; `newId` is
   * the id the database gives the new row.
   */
  function Create(brands: map<BrandId, Brand>, userId: UserId, name: Option<string>, clientRefId: Option<string>,
                  newId: BrandId)
    : Transition<Brand, map<BrandId, Brand>>
  {
    if !Truthy(name) then Transition(Error(400, MISSING_NAME), brands, [])
    else if NameTaken(brands, userId, name.value) then Transition(Error(409, DUPLICATE), brands, [])
    else
      var brand := Brand(newId, name.value, clientRefId, userId);
      Transition(Ok(200, brand), brands[newId := brand], [BrandInserted(brand)])
  }

  /** A missing or empty name gives 400 and the table is unchanged. */
  lemma MissingNameRejected(brands: map<BrandId, Brand>, userId: UserId, name: Option<string>,
                            clientRefId: Option<string>, newId: BrandId)
    requires !Truthy(name)
    ensures var t := Create(brands, userId, name, clientRefId, newId);
      t.reply == Error(400, MISSING_NAME) && t.state == brands && t.effects == []
  { }

  /** A brand of the same user with the same name gives 409 and the table is unchanged. */
  lemma DuplicateRejected(brands: map<BrandId, Brand>, userId: UserId, name: string,
                          clientRefId: Option<string>, newId: BrandId, existing: BrandId)
    requires name != ""
    requires existing in brands && brands[existing].userId == userId && brands[existing].name == name
    ensures var t := Create(brands, userId, Some(name), clientRefId, newId);
      t.reply == Error(409, DUPLICATE) && t.state == brands && t.effects == []
  { }

  /** Another user's brand of the same name does not block the name. */
  lemma NamesArePerUser(brands: map<BrandId, Brand>, userId: UserId, name: string,
                        clientRefId: Option<string>, newId: BrandId)
    requires name != ""
    requires forall id :: id in brands && brands[id].name == name ==> brands[id].userId != userId
    ensures Create(brands, userId, Some(name), clientRefId, newId).reply.Ok?
  { }

  /**
   * Otherwise exactly one brand is added, under the new id, with the given name and
   * clientRefId and the caller as owner; the reply echoes those four fields.
   */
  lemma CreatesExactlyOne(brands: map<BrandId, Brand>, userId: UserId, name: string,
                          clientRefId: Option<string>, newId: BrandId)
    requires newId !in brands
    requires name != "" && !NameTaken(brands, userId, name)
    ensures var t := Create(brands, userId, Some(name), clientRefId, newId);
      && t.reply.Ok? && t.reply.code == 200
      && t.reply.data.id == newId && t.reply.data.name == name
      && t.reply.data.clientRefId == clientRefId && t.reply.data.userId == userId
      && t.state.Keys == brands.Keys + {newId}
      && t.state[newId] == t.reply.data
      && (forall id :: id in brands ==> t.state[id] == brands[id])
      && t.effects == [BrandInserted(t.reply.data)]
  { }

  /** Under sequential execution the check-then-insert keeps `(userId, name)` unique. */
  lemma CreateKeepsUnique(brands: map<BrandId, Brand>, userId: UserId, name: Option<string>,
                          clientRefId: Option<string>, newId: BrandId)
    requires UniqueNames(brands) && KeyedById(brands)
    requires newId !in brands
    ensures var after := Create(brands, userId, name, clientRefId, newId).state;
      UniqueNames(after) && KeyedById(after)
  {
    var after := Create(brands, userId, name, clientRefId, newId).state;
    if Truthy(name) && !NameTaken(brands, userId, name.value) {
      forall a, b | a in after && b in after && after[a].userId == after[b].userId && after[a].name == after[b].name
        ensures a == b
      {
        if (a == newId) != (b == newId) {
          // the other one would be a brand of the caller with this name
          assert false;
        }
      }
    }
  }

  /** No request removes a brand. */
  lemma CreateNeverRemoves(brands: map<BrandId, Brand>, userId: UserId, name: Option<string>,
                           clientRefId: Option<string>, newId: BrandId)
    ensures brands.Keys <= Create(brands, userId, name, clientRefId, newId).state.Keys
  { }
}
