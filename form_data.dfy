/** The browser's `FormData`: an ordered list of named parts that `append` extends. */
module Forms {

  /** A part's value: text, or a file chosen in the browser (identified by a handle). */
  datatype PartValue = Text(text: string) | FileValue(handle: nat)

  datatype Part = Part(name: string, value: PartValue)

  class FormData {
    var entries: seq<Part>

    constructor ()
      ensures entries == []
    {
      entries := [];
    }

    /** `formData.append(name, value)`: adds a part after all existing ones. */
    method Append(name: string, value: PartValue)
      modifies this
      ensures entries == old(entries) + [Part(name, value)]
    {
      entries := entries + [Part(name, value)];
    }
  }
}
