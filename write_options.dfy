/** ProjectWriteOptions (libHSON/ProjectWriteOptions.cs): a 32-bit options mask, of
    which bit 0 is IncludeUnnecessaryProperties. */
module WriteOptions {
  const IncludeUnnecessaryPropertiesBit: bv32 := 1

  datatype ProjectWriteOptions = ProjectWriteOptions(optionsMask: bv32)
  {
    function IncludeUnnecessaryProperties(): bool
    {
      optionsMask & IncludeUnnecessaryPropertiesBit != 0
    }

    /** The IncludeUnnecessaryProperties setter: sets or clears the bit, and only it. */
    function WithIncludeUnnecessaryProperties(value: bool): (r: ProjectWriteOptions)
      ensures r.IncludeUnnecessaryProperties() == value
      ensures r.optionsMask & !IncludeUnnecessaryPropertiesBit == optionsMask & !IncludeUnnecessaryPropertiesBit
    {
      if value then ProjectWriteOptions(optionsMask | IncludeUnnecessaryPropertiesBit)
      else ProjectWriteOptions(optionsMask & !IncludeUnnecessaryPropertiesBit)
    }
  }

  /** `default(ProjectWriteOptions)`: the zero mask. */
  const DefaultWriteOptions: ProjectWriteOptions := ProjectWriteOptions(0)

  /** The default options leave unnecessary properties out. */
  lemma DefaultOmitsUnnecessary()
    ensures !DefaultWriteOptions.IncludeUnnecessaryProperties()
  {
  }

  /** Setting the flag to the value it already has changes nothing. */
  lemma SetterIdempotent(o: ProjectWriteOptions)
    ensures o.WithIncludeUnnecessaryProperties(o.IncludeUnnecessaryProperties()) == o
  {
    if o.IncludeUnnecessaryProperties() {
      SetBitStays(o.optionsMask);
    } else {
      ClearBitStays(o.optionsMask);
    }
  }

  lemma SetBitStays(m: bv32)
    requires m & IncludeUnnecessaryPropertiesBit != 0
    ensures m | IncludeUnnecessaryPropertiesBit == m
  {
  }

  lemma ClearBitStays(m: bv32)
    requires m & IncludeUnnecessaryPropertiesBit == 0
    ensures m & !IncludeUnnecessaryPropertiesBit == m
  {
  }
}
