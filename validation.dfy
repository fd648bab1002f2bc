/**
 * The two request validators. Each returns the set of fields that break at least one rule;
 * an empty set means the request is accepted. The current year, which the property rules
 * read from the clock, is a parameter.
 */
module Validation {
  import opened Wrappers
  import opened Text
  import opened Entities

  // ---------------------------------------------------------------------------
  // Filter request rules
  // ---------------------------------------------------------------------------

  datatype FilterField = FilterName | FilterAddress | FilterMinPrice | FilterMaxPrice | FilterPage | FilterPageSize

  const MAX_FILTER_NAME_LENGTH: int := 100
  const MAX_FILTER_ADDRESS_LENGTH: int := 200
  const PRICE_CEILING: real := 1000000000.0
  const MAX_PAGE_SIZE: int := 100

  /** The fields of a filter request that fail validation; lengths are .NET string lengths. */
  function FilterErrors(f: PropertyFilter): (errs: set<FilterField>)
    ensures FilterName in errs <==> Utf16Length(f.name) > 100
    ensures FilterAddress in errs <==> Utf16Length(f.address) > 200
    ensures FilterMinPrice in errs <==> f.minPrice.Some? && f.minPrice.value < 0.0
    ensures FilterMaxPrice in errs <==>
      f.maxPrice.Some? &&
      (f.maxPrice.value >= 1000000000.0 || (f.minPrice.Some? && f.maxPrice.value < f.minPrice.value))
    ensures FilterPage in errs <==> f.page < 1
    ensures FilterPageSize in errs <==> !(1 <= f.pageSize <= 100)
  {
    (if f.name != "" && Utf16Length(f.name) > MAX_FILTER_NAME_LENGTH then {FilterName} else {})
    + (if f.address != "" && Utf16Length(f.address) > MAX_FILTER_ADDRESS_LENGTH then {FilterAddress} else {})
    + (if f.minPrice.Some? && !(f.minPrice.value >= 0.0) then {FilterMinPrice} else {})
    + (if MaxPriceBelowMin(f) || MaxPriceTooHigh(f) then {FilterMaxPrice} else {})
    + (if !(f.page >= 1) then {FilterPage} else {})
    + (if !(1 <= f.pageSize <= MAX_PAGE_SIZE) then {FilterPageSize} else {})
  }

  /** The comparison rule on `MaxPrice`, applied only when both bounds are present. */
  predicate MaxPriceBelowMin(f: PropertyFilter)
  {
    f.minPrice.Some? && f.maxPrice.Some? && !(f.maxPrice.value >= f.minPrice.value)
  }

  /** The ceiling rule on `MaxPrice`, applied whenever it is present. */
  predicate MaxPriceTooHigh(f: PropertyFilter)
  {
    f.maxPrice.Some? && !(f.maxPrice.value < PRICE_CEILING)
  }

  /** An accepted filter has a page number of at least one, a page size in 1..100 and consistent bounds. */
  lemma AcceptedFilterIsBounded(f: PropertyFilter)
    requires FilterErrors(f) == {}
    ensures f.page >= 1 && 1 <= f.pageSize <= 100
    ensures f.minPrice.Some? ==> f.minPrice.value >= 0.0
    ensures f.minPrice.Some? && f.maxPrice.Some? ==> f.minPrice.value <= f.maxPrice.value < 1000000000.0
  {
  }

  /** A filter with no criteria passes every rule. */
  lemma DefaultFilterAccepted()
    ensures FilterErrors(DefaultFilter()) == {}
  {
    var errs := FilterErrors(DefaultFilter());
    assert forall x: FilterField :: x !in errs;
  }

  /** Equal bounds are accepted; a negative minimum or a maximum under the minimum are not. */
  lemma FilterPriceExamples()
    ensures FilterErrors(DefaultFilter().(minPrice := Some(250000.0), maxPrice := Some(250000.0))) == {}
    ensures FilterMinPrice in FilterErrors(DefaultFilter().(minPrice := Some(-1000.0)))
    ensures FilterMaxPrice in FilterErrors(DefaultFilter().(minPrice := Some(100000.0), maxPrice := Some(-1000.0)))
    ensures FilterMaxPrice in FilterErrors(DefaultFilter().(minPrice := Some(500000.0), maxPrice := Some(100000.0)))
  {
    var f := DefaultFilter().(minPrice := Some(250000.0), maxPrice := Some(250000.0));
    assert forall x: FilterField :: x !in FilterErrors(f);
  }

  /** Without a minimum, nothing forbids a negative maximum. */
  lemma NegativeMaxPriceAloneAccepted()
    ensures FilterErrors(DefaultFilter().(maxPrice := Some(-1000.0))) == {}
  {
    var f := DefaultFilter().(maxPrice := Some(-1000.0));
    assert forall x: FilterField :: x !in FilterErrors(f);
  }

  /** Page 0 and -1, and page sizes 0, -1 and 101, are each rejected on their own field. */
  lemma PagingExamples()
    ensures FilterPage in FilterErrors(DefaultFilter().(page := 0))
    ensures FilterPage in FilterErrors(DefaultFilter().(page := -1))
    ensures FilterPageSize in FilterErrors(DefaultFilter().(pageSize := 0))
    ensures FilterPageSize in FilterErrors(DefaultFilter().(pageSize := -1))
    ensures FilterPageSize in FilterErrors(DefaultFilter().(pageSize := 101))
  {
  }

  // ---------------------------------------------------------------------------
  // Property rules
  // ---------------------------------------------------------------------------

  datatype PropertyField = Name | Address | Price | CodeInternal | Year | IdOwner

  const MAX_NAME_LENGTH: int := 100
  const MAX_ADDRESS_LENGTH: int := 200
  const MAX_CODE_LENGTH: int := 50
  const MIN_YEAR_EXCLUSIVE: int := 1900
  const OBJECT_ID_LENGTH: int := 24

  /** One character of the class `[A-Z0-9-_]`. */
  predicate IsCodeChar(c: char)
  {
    ('A' <= c <= 'Z') || ('0' <= c <= '9') || c == '-' || c == '_'
  }

  /** One character of the class `[a-fA-F0-9]`. */
  predicate IsHexChar(c: char)
  {
    ('a' <= c <= 'f') || ('A' <= c <= 'F') || ('0' <= c <= '9')
  }

  /** The whole string is one or more code characters: `^[A-Z0-9-_]+$` as intended. */
  predicate IsCode(s: string)
  {
    |s| >= 1 && forall i :: 0 <= i < |s| ==> IsCodeChar(s[i])
  }

  /** The whole string is exactly 24 hexadecimal digits: `^[a-fA-F0-9]{24}$` as intended. */
  predicate IsObjectIdText(s: string)
  {
    |s| == OBJECT_ID_LENGTH && forall i :: 0 <= i < |s| ==> IsHexChar(s[i])
  }

  /**
   * The code pattern as the regular-expression engine runs it: its `$` also matches just
   * before one final line feed, so a single trailing "\n" is accepted.
   */
  predicate CodePatternAsWritten(s: string)
    ensures IsCode(s) ==> CodePatternAsWritten(s)
    ensures CodePatternAsWritten(s) && (forall i :: 0 <= i < |s| ==> s[i] != '\n') ==> IsCode(s)
    ensures CodePatternAsWritten(s) && !IsCode(s) ==> s[|s| - 1] == '\n'
  {
    IsCode(s) || (|s| >= 2 && s[|s| - 1] == '\n' && IsCode(s[..|s| - 1]))
  }

  /** The owner-id pattern as the regular-expression engine runs it (see `CodePatternAsWritten`). */
  predicate ObjectIdPatternAsWritten(s: string)
    ensures IsObjectIdText(s) ==> ObjectIdPatternAsWritten(s)
    ensures ObjectIdPatternAsWritten(s) && (forall i :: 0 <= i < |s| ==> s[i] != '\n') ==> IsObjectIdText(s)
    ensures ObjectIdPatternAsWritten(s) ==> |s| == OBJECT_ID_LENGTH || |s| == OBJECT_ID_LENGTH + 1
  {
    IsObjectIdText(s) || (|s| == OBJECT_ID_LENGTH + 1 && s[OBJECT_ID_LENGTH] == '\n' && IsObjectIdText(s[..OBJECT_ID_LENGTH]))
  }

  /** The anchored patterns accept a value followed by one line feed. */
  lemma PatternsAcceptTrailingLineFeed()
    ensures ObjectIdPatternAsWritten("507f1f77bcf86cd799439011\n") && !IsObjectIdText("507f1f77bcf86cd799439011\n")
    ensures CodePatternAsWritten("PROP-001\n") && !IsCode("PROP-001\n")
  {
    var id := "507f1f77bcf86cd799439011\n";
    assert id[..OBJECT_ID_LENGTH] == "507f1f77bcf86cd799439011";
    assert !IsCodeChar("PROP-001\n"[8]);
    var code := "PROP-001\n";
    assert code[..|code| - 1] == "PROP-001";
  }

  /** Text matching either pattern has a first character that is not white space. */
  lemma PatternTextIsNotBlank(code: string, ownerId: string)
    ensures IsCode(code) ==> !IsBlank(code)
    ensures IsObjectIdText(ownerId) ==> !IsBlank(ownerId)
  {
    if IsCode(code) {
      assert IsCodeChar(code[0]);
    }
    if IsObjectIdText(ownerId) {
      assert IsHexChar(ownerId[0]);
    }
  }

  /**
   * The fields of a property request that fail validation, in the year `currentYear`.
   * The code and owner-id patterns are the intended whole-string ones.
   */
  function PropertyErrors(dto: PropertyDto, currentYear: int): (errs: set<PropertyField>)
    ensures Name in errs <==> IsBlank(dto.name) || Utf16Length(dto.name) > 100
    ensures Address in errs <==> IsBlank(dto.address) || Utf16Length(dto.address) > 200
    ensures Price in errs <==> !(0.0 < dto.price < 1000000000.0)
    ensures CodeInternal in errs <==> !(IsCode(dto.codeInternal) && |dto.codeInternal| <= 50)
    ensures Year in errs <==> !(1900 < dto.year <= currentYear + 1)
    ensures IdOwner in errs <==> !IsObjectIdText(dto.idOwner)
  {
    PatternTextIsNotBlank(dto.codeInternal, dto.idOwner);
    (if IsBlank(dto.name) || Utf16Length(dto.name) > MAX_NAME_LENGTH then {Name} else {})
    + (if IsBlank(dto.address) || Utf16Length(dto.address) > MAX_ADDRESS_LENGTH then {Address} else {})
    + (if !(dto.price > 0.0) || !(dto.price < PRICE_CEILING) then {Price} else {})
    + (if IsBlank(dto.codeInternal) || |dto.codeInternal| > MAX_CODE_LENGTH || !IsCode(dto.codeInternal)
       then {CodeInternal} else {})
    + (if !(dto.year > MIN_YEAR_EXCLUSIVE) || !(dto.year <= currentYear + 1) then {Year} else {})
    + (if IsBlank(dto.idOwner) || !IsObjectIdText(dto.idOwner) then {IdOwner} else {})
  }

  /**
   * Lengths are counted in UTF-16 code units: sixty emoji are 120 units, so such a name breaks
   * both 100-unit limits although it holds only sixty characters.
   */
  lemma AstralNameCountsTwice(currentYear: int)
    ensures var name := seq(60, _ => '\U{1F600}');
      |name| == 60 && Utf16Length(name) == 120 &&
      FilterName in FilterErrors(DefaultFilter().(name := name)) &&
      Name in PropertyErrors(SampleDto().(name := name), currentYear)
  {
    var name := seq(60, _ => '\U{1F600}');
    Utf16LengthOfPlane(name);
  }

  /** An accepted request carries a 24-hex-digit owner id and a code of allowed characters only. */
  lemma AcceptedPropertyIdsAreCanonical(dto: PropertyDto, currentYear: int)
    requires PropertyErrors(dto, currentYear) == {}
    ensures |dto.idOwner| == 24 && forall i :: 0 <= i < 24 ==> IsHexChar(dto.idOwner[i])
    ensures 1 <= |dto.codeInternal| <= 50 && forall i :: 0 <= i < |dto.codeInternal| ==> dto.codeInternal[i] != '\n'
  {
    assert IdOwner !in PropertyErrors(dto, currentYear);
    assert CodeInternal !in PropertyErrors(dto, currentYear);
  }

  function SampleDto(): PropertyDto
  {
    NewPropertyDto().(name := "Casa Test", address := "Dirección Test 123", price := 150000.0,
                      idOwner := "507f1f77bcf86cd799439011", codeInternal := "PROP-001", year := 2023)
  }

  /** A record whose name and address fit in half their limits (in characters) and whose other fields are in range is accepted. */
  lemma AcceptedWhenInRange(d: PropertyDto, currentYear: int)
    requires !IsBlank(d.name) && |d.name| <= MAX_NAME_LENGTH / 2
    requires !IsBlank(d.address) && |d.address| <= MAX_ADDRESS_LENGTH / 2
    requires 0.0 < d.price < PRICE_CEILING
    requires IsCode(d.codeInternal) && |d.codeInternal| <= MAX_CODE_LENGTH
    requires MIN_YEAR_EXCLUSIVE < d.year <= currentYear + 1
    requires IsObjectIdText(d.idOwner)
    ensures PropertyErrors(d, currentYear) == {}
  {
    var errs := PropertyErrors(d, currentYear);
    assert forall x: PropertyField :: x !in errs;
  }

  /** A request with every field in range and a 24-hex-digit owner id is accepted (from 2022 on, when 2023 is at most the next year). */
  lemma SampleDtoAccepted(currentYear: int)
    requires currentYear >= 2022
    ensures PropertyErrors(SampleDto(), currentYear) == {}
  {
    var d := SampleDto();
    assert !IsBlank(d.name) by { assert !IsWhiteSpace(d.name[0]); }
    assert !IsBlank(d.address) by { assert !IsWhiteSpace(d.address[0]); }
    assert IsCode(d.codeInternal);
    assert IsObjectIdText(d.idOwner);
    AcceptedWhenInRange(d, currentYear);
  }

  /** Rejections on single fields: empty or blank name, zero and negative price, bad years, empty and non-hex owner ids. */
  lemma PropertyRejectionExamples(currentYear: int)
    ensures Name in PropertyErrors(SampleDto().(name := ""), currentYear)
    ensures Name in PropertyErrors(SampleDto().(name := "   "), currentYear)
    ensures Address in PropertyErrors(SampleDto().(address := ""), currentYear)
    ensures Price in PropertyErrors(SampleDto().(price := 0.0), currentYear)
    ensures Price in PropertyErrors(SampleDto().(price := -1000.0), currentYear)
    ensures CodeInternal in PropertyErrors(SampleDto().(codeInternal := ""), currentYear)
    ensures Year in PropertyErrors(SampleDto().(year := 1800), currentYear)
    ensures Year in PropertyErrors(SampleDto().(year := currentYear + 2), currentYear)
    ensures IdOwner in PropertyErrors(SampleDto().(idOwner := ""), currentYear)
    ensures IdOwner in PropertyErrors(SampleDto().(idOwner := "owner123"), currentYear)
  {
  }
}
