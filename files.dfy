/**
 * A text file as the writers see it: its lines in order, each ending in
 * "\n". Opening with 'w' replaces the contents, opening with 'a' appends.
 */
module Files {

  class TextFile {
    var lines: seq<string>

    constructor(initial: seq<string>)
      ensures lines == initial
    {
      lines := initial;
    }

    /** `open(path, 'w')`: the file is truncated. */
    method Truncate()
      modifies this
      ensures lines == []
    {
      lines := [];
    }

    /** `file.write(...)` of whole lines on a file opened with 'w' or 'a'. */
    method Append(more: seq<string>)
      modifies this
      ensures lines == old(lines) + more
    {
      lines := lines + more;
    }
  }
}
