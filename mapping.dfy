/**
 * The object mappings between entities and transport records, and the resolver that
 * derives a property's single display image from its image list.
 */
module Mapping {
  import opened Wrappers
  import opened Entities

  /** The file of the first enabled image in list order, or None when no image is enabled. */
  function FirstEnabledFile(images: seq<PropertyImage>): (r: Option<string>)
    ensures r.None? <==> forall i :: 0 <= i < |images| ==> !images[i].enabled
    ensures r.Some? ==>
      exists k :: 0 <= k < |images| && images[k].enabled && images[k].file == r.value &&
        forall j :: 0 <= j < k ==> !images[j].enabled
  {
    if images == [] then None
    else if images[0].enabled then Some(images[0].file)
    else
      var r := FirstEnabledFile(images[1..]);
      assert forall i :: 1 <= i < |images| ==> images[i] == images[1..][i - 1];
      r
  }

  /** The display image of a property: null for a null or empty list, else the first enabled file. */
  function ResolveImage(images: Option<seq<PropertyImage>>): (r: Option<string>)
    ensures images.None? || images.value == [] ==> r.None?
  {
    if images.None? || |images.value| == 0 then None
    else FirstEnabledFile(images.value)
  }

  /** Resolving never invents a file: a resolved image is the file of an enabled image of the list. */
  lemma ResolvedImageIsEnabled(images: Option<seq<PropertyImage>>)
    requires ResolveImage(images).Some?
    ensures images.Some?
    ensures exists k :: 0 <= k < |images.value| && images.value[k].enabled && images.value[k].file == ResolveImage(images).value
  {
  }

  /** With no enabled image, however many images there are, the result is null. */
  lemma NoEnabledImageResolvesNull(images: seq<PropertyImage>)
    requires forall i :: 0 <= i < |images| ==> !images[i].enabled
    ensures ResolveImage(Some(images)) == None
  {
  }

  /** Any enabled image ahead of all other enabled images is the one chosen. */
  lemma FirstEnabledWins(images: seq<PropertyImage>, k: nat)
    requires k < |images| && images[k].enabled
    requires forall j :: 0 <= j < k ==> !images[j].enabled
    ensures ResolveImage(Some(images)) == Some(images[k].file)
  {
  }

  /** The three-image example: [off "image1", on "image2", on "image3"] gives "image2.jpg". */
  lemma ResolveExample()
    ensures ResolveImage(Some([
      NewPropertyImage().(file := "image1.jpg", enabled := false),
      NewPropertyImage().(file := "image2.jpg", enabled := true),
      NewPropertyImage().(file := "image3.jpg", enabled := true)])) == Some("image2.jpg")
  {
    var imgs := [
      NewPropertyImage().(file := "image1.jpg", enabled := false),
      NewPropertyImage().(file := "image2.jpg", enabled := true),
      NewPropertyImage().(file := "image3.jpg", enabled := true)];
    FirstEnabledWins(imgs, 1);
  }

  /** Property to PropertyDto: scalars copied, image resolved; the entity has no owner to embed. */
  function ToDto(p: Property): (d: PropertyDto)
    ensures SameScalars(p, d)
    ensures d.image == ResolveImage(p.images) && d.owner == None
  {
    PropertyDto(p.id, p.idOwner, p.name, p.address, p.price, p.codeInternal, p.year, ResolveImage(p.images), None)
  }

  /** PropertyDto onto an existing entity: scalars overwritten, image and trace lists left as they were. */
  function MapOnto(dto: PropertyDto, existing: Property): (r: Property)
    ensures SameScalars(r, dto)
    ensures r.images == existing.images && r.traces == existing.traces
  {
    existing.(id := dto.id, name := dto.name, address := dto.address, price := dto.price,
              codeInternal := dto.codeInternal, year := dto.year, idOwner := dto.idOwner)
  }

  /** PropertyDto to a fresh entity: the record's scalars with the empty default lists. */
  function ToEntity(dto: PropertyDto): (r: Property)
    ensures SameScalars(r, dto)
    ensures r.images == Some([]) && r.traces == Some([])
  {
    MapOnto(dto, NewProperty())
  }

  /** Owner to OwnerDto: every member copied by name. */
  function OwnerToDto(o: Owner): (d: OwnerDto)
    ensures d.id == o.id && d.name == o.name && d.address == o.address
    ensures d.photo == o.photo && d.birthday == o.birthday
  {
    OwnerDto(o.id, o.name, o.address, o.photo, o.birthday)
  }

  /** OwnerDto to Owner: the inverse of `OwnerToDto`. */
  function OwnerFromDto(d: OwnerDto): (o: Owner)
    ensures OwnerToDto(o) == d
  {
    Owner(d.id, d.name, d.address, d.photo, d.birthday)
  }

  /** The seven scalar fields that both directions copy. */
  predicate SameScalars(p: Property, d: PropertyDto)
  {
    p.id == d.id && p.name == d.name && p.address == d.address && p.price == d.price &&
    p.codeInternal == d.codeInternal && p.year == d.year && p.idOwner == d.idOwner
  }

  /** Record to entity and back preserves the scalars; the fresh entity has no image. */
  lemma DtoRoundTrip(dto: PropertyDto)
    ensures ToDto(ToEntity(dto)) == dto.(image := None, owner := None)
  {
  }

  /** Entity to record and back onto the same entity gives the entity back. */
  lemma EntityRoundTrip(p: Property)
    ensures MapOnto(ToDto(p), p) == p
  {
  }

  /** The owner mapping is a bijection: both round trips are the identity. */
  lemma OwnerRoundTrips(o: Owner, d: OwnerDto)
    ensures OwnerFromDto(OwnerToDto(o)) == o
    ensures OwnerToDto(OwnerFromDto(d)) == d
  {
  }
}
