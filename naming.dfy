/** The name of the file the annotated sheet is written to. The directory
    and the split of the input name into a base and an extension are taken
    as given (they come from the platform's path functions). */
module Naming {
  /** Inserted between the input's base name and its extension. */
  const VERIFIED_SUFFIX := "_verified"

  /** `f"{file_base}_verified{file_ext}"`: the output name, written next to
      the input in the same directory. */
  function OutputFileName(base: string, ext: string): (name: string)
    ensures |name| == |base| + |VERIFIED_SUFFIX| + |ext|
    ensures name[..|base|] == base
    ensures name[|base|..|base| + |VERIFIED_SUFFIX|] == VERIFIED_SUFFIX
    ensures name[|name| - |ext|..] == ext
  {
    base + VERIFIED_SUFFIX + ext
  }

  /** The output never overwrites the input: its name is longer than the
      input name `base + ext`. */
  lemma OutputDiffersFromInput(base: string, ext: string)
    ensures OutputFileName(base, ext) != base + ext
  {
    assert |OutputFileName(base, ext)| == |base + ext| + |VERIFIED_SUFFIX|;
  }

  /** Inputs with the same extension and different base names get different
      output names, so two inputs in one directory never share an output. */
  lemma OutputFileNameInjective(base1: string, base2: string, ext: string)
    requires OutputFileName(base1, ext) == OutputFileName(base2, ext)
    ensures base1 == base2
  {
    var name := OutputFileName(base1, ext);
    assert |base1| == |base2|;
    assert base1 == name[..|base1|] == base2;
  }
}
