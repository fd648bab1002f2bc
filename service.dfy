/**
 * The business service over the repository: reads are load-then-map, writes map the record
 * to an entity and hand it to the repository.
 */
module Business {
  import opened Wrappers
  import opened Entities
  import opened Mapping
  import opened PropertyQuery
  import opened Repository

  /** The records of a sequence of entities, one for one and in order. */
  function ToDtos(ps: seq<Property>): (r: seq<PropertyDto>)
    ensures |r| == |ps|
    ensures forall i :: 0 <= i < |ps| ==> r[i] == ToDto(ps[i])
  {
    if ps == [] then [] else [ToDto(ps[0])] + ToDtos(ps[1..])
  }

  /**
   * The entity an update persists: the route id whatever the record's id, the record's other
   * scalars, and the loaded entity's image and trace lists.
   */
  function Overlaid(dto: PropertyDto, existing: Property, id: Id): (u: Property)
    ensures u.id == id && SameScalars(u, dto.(id := id))
    ensures u.images == existing.images && u.traces == existing.traces
  {
    MapOnto(dto, existing).(id := id)
  }

  class PropertyService {
    const repository: PropertyRepository

    ghost predicate Valid()
      reads this, repository
    {
      repository.Valid()
    }

    constructor (repository: PropertyRepository)
      ensures this.repository == repository
    {
      this.repository := repository;
    }

    /** Every stored property as a record, in store order. */
    method GetAllProperties() returns (r: seq<PropertyDto>)
      ensures |r| == |repository.documents|
      ensures forall i :: 0 <= i < |r| ==> r[i] == ToDto(repository.documents[i])
    {
      var ps := repository.GetAll();
      r := ToDtos(ps);
    }

    /** The record of the stored property with id `id`; null exactly when the repository finds none. */
    method GetPropertyById(id: Id) returns (r: Option<PropertyDto>)
      ensures r.None? <==> FindById(repository.documents, id).None?
      ensures r.Some? ==> r.value == ToDto(FindById(repository.documents, id).value) && r.value.id == id
    {
      var p := repository.GetById(id);
      r := if p.Some? then Some(ToDto(p.value)) else None;
    }

    /** The records of the filtered listing, one per property the repository returns, in order. */
    method GetFilteredProperties(f: PropertyFilter) returns (r: seq<PropertyDto>)
      ensures |r| == |Query(f, repository.documents)|
      ensures forall i :: 0 <= i < |r| ==> r[i] == ToDto(Query(f, repository.documents)[i])
    {
      var ps := repository.GetFiltered(f);
      r := ToDtos(ps);
    }

    /** Create: the record becomes a fresh entity, the repository inserts it, its record is returned. */
    method CreateProperty(dto: PropertyDto, generatedId: Id) returns (r: Result<PropertyDto, string>)
      requires Valid()
      modifies repository`documents
      ensures Valid()
      ensures var e := ToEntity(dto);
        var stored := if e.id == "" then e.(id := generatedId) else e;
        if FindById(old(repository.documents), stored.id).Some? then
          r == Failure(DUPLICATE_KEY) && repository.documents == old(repository.documents)
        else
          r == Success(ToDto(stored)) && repository.documents == old(repository.documents) + [stored]
    {
      var created := repository.Create(ToEntity(dto), generatedId);
      r := if created.Success? then Success(ToDto(created.value)) else Failure(created.error);
    }

    /**
     * Update: a missing id gives null without any write. Otherwise the record is overlaid on
     * the loaded entity, the id re-pinned to the route id, and the repository's update is
     * called once with the route id; its result, when not null, is returned as a record.
     */
    method UpdateProperty(id: Id, dto: PropertyDto) returns (r: Result<Option<PropertyDto>, string>)
      requires Valid()
      modifies repository`documents, repository`updateCalls
      ensures Valid()
      ensures r.Success?
      ensures match old(FindById(repository.documents, id))
        case None =>
          r == Success(None) &&
          repository.documents == old(repository.documents) &&
          repository.updateCalls == old(repository.updateCalls)
        case Some(existing) =>
          var u := Overlaid(dto, existing, id);
          repository.updateCalls == old(repository.updateCalls) + [id] &&
          repository.documents == ReplaceFirst(old(repository.documents), id, u) &&
          FindById(repository.documents, id) == Some(u) &&
          r == Success(if repository.acknowledged then Some(ToDto(u)) else None)
    {
      var existing := repository.GetById(id);
      if existing.None? {
        return Success(None);
      }
      var u := Overlaid(dto, existing.value, id);
      ReplaceFirstSpec(repository.documents, id, u);
      var updated := repository.Update(id, u);
      r := match updated
        case Success(Some(p)) => Success(Some(ToDto(p)))
        case Success(None) => Success(None)
        case Failure(e) => Failure(e);
    }

    /** Delete: exactly the repository's result. */
    method DeleteProperty(id: Id) returns (deleted: bool)
      requires Valid()
      modifies repository`documents
      ensures Valid()
      ensures deleted <==> repository.acknowledged && FindById(old(repository.documents), id).Some?
      ensures repository.documents == RemoveFirst(old(repository.documents), id)
    {
      deleted := repository.Delete(id);
    }
  }
}
