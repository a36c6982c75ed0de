/** `convert_to_csv`: a whitespace-separated Picarro file is rewritten as
    CSV under `DATA_DIR`, one row per non-blank line, its fields the line's
    whitespace-separated tokens. */
module Picarro {
  import Common

  const DataDir: string := "XXXXXXXX"

  // ---------------------------------------------------------------------
  // The output name

  /** `path.name`: the part after the last '/'. */
  function BaseName(path: string): string
    decreases |path|
  {
    if path == [] then ""
    else if path[|path| - 1] == '/' then ""
    else BaseName(path[..|path| - 1]) + [path[|path| - 1]]
  }

  /** `name.rsplit('.', 1)[0]`: everything before the last '.', or the whole
      name when it has none. */
  function Stem(name: string): string
    decreases |name|
  {
    if name == [] then ""
    else if name[|name| - 1] == '.' then name[..|name| - 1]
    else if '.' in name[..|name| - 1] then Stem(name[..|name| - 1])
    else name
  }

  /** `input_path.name.rsplit('.', 1)[0] + '.csv'`. */
  function OutputName(inputPath: string): string
  {
    Stem(BaseName(inputPath)) + ".csv"
  }

  /** `DATA_DIR / output_filename`. */
  function OutputPath(inputPath: string): string
  {
    DataDir + "/" + OutputName(inputPath)
  }

  /** A name with no '.' is its own stem. */
  lemma StemWithoutDot(name: string)
    requires '.' !in name
    ensures Stem(name) == name
  {
    if name != [] {
      assert '.' !in name[..|name| - 1] by {
        assert forall k :: 0 <= k < |name| - 1 ==> name[..|name| - 1][k] == name[k];
      }
    }
  }

  /** The stem drops the last '.' and the extension after it. */
  lemma {:induction false} StemDropsExtension(stem: string, ext: string)
    requires '.' !in ext
    ensures Stem(stem + "." + ext) == stem
    decreases |ext|
  {
    var name := stem + "." + ext;
    if ext == [] {
      assert name[..|name| - 1] == stem;
    } else {
      var shorter := stem + "." + ext[..|ext| - 1];
      assert name[..|name| - 1] == shorter;
      assert name[|name| - 1] == ext[|ext| - 1];
      assert shorter[|stem|] == '.';
      StemDropsExtension(stem, ext[..|ext| - 1]);
    }
  }

  /** The output name is the input's file name with everything from its last
      '.' removed, plus ".csv"; a name without '.' keeps all of it; the
      output goes to `DATA_DIR` whatever directory the input is in. */
  lemma OutputNameIs(dir: string, stem: string, ext: string)
    requires '/' !in stem && '/' !in ext && '.' !in ext
    ensures OutputName(dir + "/" + stem + "." + ext) == stem + ".csv"
    ensures '.' !in stem ==> OutputName(dir + "/" + stem) == stem + ".csv"
    ensures OutputPath(dir + "/" + stem + "." + ext) == DataDir + "/" + stem + ".csv"
  {
    var name := stem + "." + ext;
    assert '/' !in name by {
      assert forall k :: 0 <= k < |name| ==> name[k] == (if k < |stem| then stem[k] else if k == |stem| then '.' else ext[k - |stem| - 1]);
    }
    assert dir + "/" + stem + "." + ext == dir + "/" + name;
    NameAfterSlash(dir, name);
    StemDropsExtension(stem, ext);
    if '.' !in stem {
      NameAfterSlash(dir, stem);
      StemWithoutDot(stem);
      assert OutputName(dir + "/" + stem) == Stem(BaseName(dir + "/" + stem)) + ".csv";
    }
  }

  /** The name of `dir/name` is `name`. */
  lemma {:induction false} NameAfterSlash(dir: string, name: string)
    requires '/' !in name
    ensures BaseName(dir + "/" + name) == name
    decreases |name|
  {
    var path := dir + "/" + name;
    if name != [] {
      var init := name[..|name| - 1];
      assert path[..|path| - 1] == dir + "/" + init;
      assert path[|path| - 1] == name[|name| - 1];
      assert '/' !in init by {
        assert forall k :: 0 <= k < |init| ==> init[k] == name[k];
      }
      NameAfterSlash(dir, init);
      assert name == init + [name[|name| - 1]];
    }
  }

  // ---------------------------------------------------------------------
  // Tokenising a line

  /** Python's whitespace (`str.isspace`). */
  predicate IsSpace(c: char)
  {
    || ('\U{9}' <= c <= '\U{D}') || ('\U{1C}' <= c <= '\U{20}') || c == '\U{85}' || c == '\U{A0}'
    || c == '\U{1680}' || ('\U{2000}' <= c <= '\U{200A}') || c == '\U{2028}' || c == '\U{2029}'
    || c == '\U{202F}' || c == '\U{205F}' || c == '\U{3000}'
  }

  predicate NoSpace(s: string)
  {
    forall k :: 0 <= k < |s| ==> !IsSpace(s[k])
  }

  predicate AllSpace(s: string)
  {
    forall k :: 0 <= k < |s| ==> IsSpace(s[k])
  }

  /** `line.strip()`. */
  function Strip(s: string): (t: string)
    decreases |s|
  {
    if s == [] then ""
    else if IsSpace(s[0]) then Strip(s[1..])
    else if IsSpace(s[|s| - 1]) then Strip(s[..|s| - 1])
    else s
  }

  /** The rest of `str.split()` once `word` has been read of the current
      token. */
  function SplitFrom(s: string, word: string): seq<string>
    decreases |s|
  {
    if s == [] then (if word == [] then [] else [word])
    else if IsSpace(s[0]) then (if word == [] then SplitFrom(s[1..], []) else [word] + SplitFrom(s[1..], []))
    else SplitFrom(s[1..], word + [s[0]])
  }

  /** `s.split()`: the maximal runs of non-whitespace, in order. */
  function SplitWhitespace(s: string): seq<string>
  {
    SplitFrom(s, [])
  }

  /** `[x for x in line.strip().split() if x]`. */
  function RowOf(line: string): seq<string>
  {
    NonEmpty(SplitWhitespace(Strip(line)))
  }

  function NonEmpty(items: seq<string>): seq<string>
    decreases |items|
  {
    if items == [] then []
    else if items[0] == [] then NonEmpty(items[1..])
    else [items[0]] + NonEmpty(items[1..])
  }

  predicate Tokens(items: seq<string>)
  {
    forall k :: 0 <= k < |items| ==> items[k] != [] && NoSpace(items[k])
  }

  /** Every piece `split()` returns is non-empty and free of whitespace. */
  lemma {:induction false} SplitFromTokens(s: string, word: string)
    requires NoSpace(word)
    ensures Tokens(SplitFrom(s, word))
    decreases |s|
  {
    if s != [] {
      if IsSpace(s[0]) {
        SplitFromTokens(s[1..], []);
      } else {
        SplitFromTokens(s[1..], word + [s[0]]);
      }
    }
  }

  /** `split()` finds nothing exactly in whitespace. */
  lemma {:induction false} SplitFromEmpty(s: string, word: string)
    ensures SplitFrom(s, word) == [] <==> word == [] && AllSpace(s)
    decreases |s|
  {
    if s != [] {
      if IsSpace(s[0]) {
        SplitFromEmpty(s[1..], []);
        if word != [] {
          assert |SplitFrom(s, word)| > 0;
        }
        assert AllSpace(s) <==> AllSpace(s[1..]) by {
          assert forall k :: 0 < k < |s| ==> s[k] == s[1..][k - 1];
        }
      } else {
        SplitFromEmpty(s[1..], word + [s[0]]);
      }
    }
  }

  /** The filter `if x` drops nothing from a list of tokens. */
  lemma {:induction false} NonEmptyTokens(items: seq<string>)
    requires Tokens(items)
    ensures NonEmpty(items) == items
    decreases |items|
  {
    if items != [] {
      NonEmptyTokens(items[1..]);
    }
  }

  /** Stripping first changes nothing `split()` returns. */
  lemma {:induction false} StripKeepsSplit(s: string)
    ensures SplitWhitespace(Strip(s)) == SplitWhitespace(s)
    decreases |s|
  {
    if s != [] {
      if IsSpace(s[0]) {
        StripKeepsSplit(s[1..]);
      } else if IsSpace(s[|s| - 1]) {
        StripKeepsSplit(s[..|s| - 1]);
        TrailingSpace(s[..|s| - 1], [s[|s| - 1]], []);
        assert s[..|s| - 1] + [s[|s| - 1]] == s;
      }
    }
  }

  /** Whitespace at the end closes the current token and adds nothing. */
  lemma {:induction false} TrailingSpace(s: string, tail: string, word: string)
    requires tail != [] && AllSpace(tail)
    ensures SplitFrom(s + tail, word) == SplitFrom(s, word)
    decreases |s|
  {
    if s == [] {
      assert s + tail == tail;
      SpacesOnly(tail, word);
    } else {
      assert (s + tail)[1..] == s[1..] + tail;
      if IsSpace(s[0]) {
        TrailingSpace(s[1..], tail, []);
      } else {
        TrailingSpace(s[1..], tail, word + [s[0]]);
      }
    }
  }

  lemma {:induction false} SpacesOnly(tail: string, word: string)
    requires tail != [] && AllSpace(tail)
    ensures SplitFrom(tail, word) == (if word == [] then [] else [word])
    decreases |tail|
  {
    if |tail| > 1 {
      SpacesOnly(tail[1..], []);
    } else {
      assert tail[1..] == [];
    }
  }

  /** A line's row is its whitespace-separated tokens: the tokens of
      `Join(tokens, ' ')`, for any tokens, are those tokens again; and a
      line gives no row exactly when it is blank. */
  lemma RowOfShape(line: string)
    ensures Tokens(RowOf(line))
    ensures RowOf(line) == SplitWhitespace(line)
    ensures RowOf(line) == [] <==> AllSpace(line)
  {
    StripKeepsSplit(line);
    SplitFromTokens(Strip(line), []);
    NonEmptyTokens(SplitWhitespace(Strip(line)));
    SplitFromEmpty(line, []);
  }

  /** Joining tokens with single spaces and splitting again gives the
      tokens back. */
  lemma {:induction false} SplitJoinTokens(items: seq<string>)
    requires Tokens(items)
    ensures SplitWhitespace(Common.Join(items, ' ')) == items
    decreases |items|
  {
    if |items| == 1 {
      WordThen(items[0], [], []);
      assert items[0] + [] == items[0] && [] + items[0] == items[0];
    } else if |items| > 1 {
      var rest := Common.Join(items[1..], ' ');
      SplitJoinTokens(items[1..]);
      WordThen(items[0], [' '] + rest, []);
      assert items[0] + [' '] + rest == items[0] + ([' '] + rest);
      assert ([' '] + rest)[1..] == rest;
      assert [] + items[0] == items[0];
      assert SplitFrom([' '] + rest, items[0]) == [items[0]] + SplitFrom(rest, []);
      assert items == [items[0]] + items[1..];
    }
  }

  /** Reading a whitespace-free word adds it to the current token. */
  lemma {:induction false} WordThen(w: string, rest: string, word: string)
    requires NoSpace(w)
    ensures SplitFrom(w + rest, word) == SplitFrom(rest, word + w)
    decreases |w|
  {
    if w != [] {
      assert (w + rest)[0] == w[0] && !IsSpace(w[0]);
      assert (w + rest)[1..] == w[1..] + rest;
      assert NoSpace(w[1..]) by {
        assert forall k :: 0 <= k < |w| - 1 ==> w[1..][k] == w[k + 1];
      }
      assert word + [w[0]] + w[1..] == word + w;
      WordThen(w[1..], rest, word + [w[0]]);
    } else {
      assert w + rest == rest && word + w == word;
    }
  }

  // ---------------------------------------------------------------------
  // The conversion loop

  /** The rows the conversion writes: one per non-blank line, in order. */
  function CsvRows(lines: seq<string>): seq<seq<string>>
    decreases |lines|
  {
    if lines == [] then []
    else
      var rows := CsvRows(lines[..|lines| - 1]);
      var row := RowOf(lines[|lines| - 1]);
      if row == [] then rows else rows + [row]
  }

  /** Converting two pieces of a file one after the other writes the rows of
      the first, then those of the second. */
  lemma {:induction false} CsvRowsAppend(a: seq<string>, b: seq<string>)
    ensures CsvRows(a + b) == CsvRows(a) + CsvRows(b)
    decreases |b|
  {
    if b == [] {
      assert a + b == a;
    } else {
      assert (a + b)[..|a + b| - 1] == a + b[..|b| - 1];
      CsvRowsAppend(a, b[..|b| - 1]);
    }
  }

  /** A blank line writes nothing, any other line exactly its tokens; every
      row written is a non-empty list of tokens. */
  lemma CsvRowsOfLine(line: string)
    ensures CsvRows([line]) == if AllSpace(line) then [] else [SplitWhitespace(line)]
  {
    assert [line][..0] == [];
    RowOfShape(line);
  }

  /** Every row written is a non-empty row of tokens of some line, and there
      are no more rows than lines. */
  lemma {:induction false} CsvRowsAreTokens(lines: seq<string>)
    ensures |CsvRows(lines)| <= |lines|
    ensures forall k :: 0 <= k < |CsvRows(lines)| ==> CsvRows(lines)[k] != [] && Tokens(CsvRows(lines)[k])
    decreases |lines|
  {
    if lines != [] {
      CsvRowsAreTokens(lines[..|lines| - 1]);
      RowOfShape(lines[|lines| - 1]);
    }
  }

  /** The CSV writer: the rows written so far. */
  class CsvWriter {
    var rows: seq<seq<string>>

    constructor ()
      ensures rows == []
    {
      rows := [];
    }

    /** `writer.writerow(row)`. */
    method WriteRow(row: seq<string>)
      modifies this
      ensures rows == old(rows) + [row]
    {
      rows := rows + [row];
    }
  }

  /** `convert_to_csv(input_path)` over the input file's lines: the output
      path, and the writer holding the rows written. */
  method ConvertToCsv(inputPath: string, lines: seq<string>) returns (outputPath: string, writer: CsvWriter)
    ensures outputPath == OutputPath(inputPath)
    ensures fresh(writer)
    ensures writer.rows == CsvRows(lines)
  {
    var outputFilename := Stem(BaseName(inputPath)) + ".csv";
    outputPath := DataDir + "/" + outputFilename;
    writer := new CsvWriter();
    for i := 0 to |lines|
      invariant writer.rows == CsvRows(lines[..i])
    {
      var row := NonEmpty(SplitWhitespace(Strip(lines[i])));
      assert lines[..i + 1][..i] == lines[..i];
      if row != [] {
        writer.WriteRow(row);
      }
    }
    assert lines[..|lines|] == lines;
  }
}
