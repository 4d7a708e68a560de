/** The genotype flat-file parser: reads at most fifty lines and maps each line's SNP to a
    genotype. Reading a line can fail; the first failure aborts the parse. */
module Parser {
  import opened Wrappers

  /** The I/O error of a failed line read. Its contents are opaque. */
  datatype IoError = IoError(id: nat)

  datatype Snp = Snp(id: string)
  datatype Genotype = Genotype(name: string)

  /** How many lines `parse` reads at most. */
  const LineLimit := 50

  type Lines = seq<Result<string, IoError>>

  /** `parse_line`: never fails; the whole line is the SNP id and the genotype is always GG. */
  function ParseLine(line: string): (r: Result<(Snp, Genotype), IoError>)
    ensures r.Ok? && r.value.0.id == line && r.value.1.name == "GG"
  {
    Ok((Snp(line), Genotype("GG")))
  }

  /** `input.lines().take(50)`: the line reads `parse` performs. */
  function Read(input: Lines): (lines: Lines)
    ensures |lines| <= LineLimit && |lines| <= |input|
    ensures |lines| == LineLimit || |lines| == |input|
    ensures lines == input[..|lines|]
  {
    if |input| <= LineLimit then input else input[..LineLimit]
  }

  /** The position of the first failed read, if any. */
  function FirstError(lines: Lines): (r: Option<nat>)
    ensures r.Some? ==> r.value < |lines| && lines[r.value].Err?
    ensures r.Some? ==> forall j :: 0 <= j < r.value ==> lines[j].Ok?
    ensures r.None? ==> forall j :: 0 <= j < |lines| ==> lines[j].Ok?
  {
    if |lines| == 0 then None
    else if lines[0].Err? then Some(0)
    else match FirstError(lines[1..])
      case None => None
      case Some(i) => Some(i + 1)
  }

  /** A failed read preceded only by successful ones is the first failure. */
  lemma FirstErrorAt(lines: Lines, i: nat)
    requires i < |lines| && lines[i].Err?
    requires forall j :: 0 <= j < i ==> lines[j].Ok?
    ensures FirstError(lines) == Some(i)
  {
  }

  /** The SNPs of the lines that were read successfully. */
  function Ids(lines: Lines): set<Snp> {
    set i | 0 <= i < |lines| && lines[i].Ok? :: Snp(lines[i].value)
  }

  /** The distinct texts of the lines that were read successfully. */
  function Texts(lines: Lines): set<string> {
    set i | 0 <= i < |lines| && lines[i].Ok? :: lines[i].value
  }

  /** What `parse` returns: the first read error among the lines read, or else the map from
      every line read to GG. */
  function Manifest(input: Lines): Result<map<Snp, Genotype>, IoError> {
    var lines := Read(input);
    match FirstError(lines)
    case Some(i) => Err(lines[i].error)
    case None => Ok(map snp | snp in Ids(lines) :: Genotype("GG"))
  }

  /** `parse` */
  method Parse(input: Lines) returns (r: Result<map<Snp, Genotype>, IoError>)
    ensures r == Manifest(input)
  {
    var lines := Read(input);
    var manifest: map<Snp, Genotype> := map[];
    for i := 0 to |lines|
      invariant forall j :: 0 <= j < i ==> lines[j].Ok?
      invariant manifest.Keys == Ids(lines[..i])
      invariant forall snp :: snp in manifest ==> manifest[snp] == Genotype("GG")
    {
      if lines[i].Err? {
        FirstErrorAt(lines, i);
      }
      var entry :- match lines[i]
        case Err(e) => Err(e)
        case Ok(line) => ParseLine(line);
      manifest := manifest[entry.0 := entry.1];
      assert Ids(lines[..i + 1]) == Ids(lines[..i]) + {entry.0} by {
        assert forall j :: 0 <= j < i ==> lines[..i + 1][j] == lines[..i][j];
      }
    }
    assert lines[..|lines|] == lines;
    assert FirstError(lines).None?;
    assert manifest == map snp | snp in Ids(lines) :: Genotype("GG");
    r := Ok(manifest);
  }

  /** The first failed read among the first fifty is the result, and no map is built. */
  lemma FirstErrorAborts(input: Lines, i: nat)
    requires i < |input| && i < LineLimit
    requires input[i].Err?
    requires forall j :: 0 <= j < i ==> input[j].Ok?
    ensures Manifest(input) == Err(input[i].error)
  {
  }

  /** When the first fifty reads all succeed, the map has one key per line read and GG for
      every key. */
  lemma AllReadsSucceed(input: Lines)
    requires forall j :: 0 <= j < |input| && j < LineLimit ==> input[j].Ok?
    ensures Manifest(input).Ok?
    ensures Manifest(input).value.Keys == Ids(Read(input))
    ensures forall snp :: snp in Manifest(input).value ==> Manifest(input).value[snp] == Genotype("GG")
    ensures forall j :: 0 <= j < |input| && j < LineLimit ==> Snp(input[j].value) in Manifest(input).value
  {
  }

  /** Reading one more line adds at most that line's SNP and text. */
  lemma IdsSnoc(init: Lines, last: Result<string, IoError>)
    ensures last.Ok? ==> Ids(init + [last]) == Ids(init) + {Snp(last.value)}
    ensures last.Ok? ==> Texts(init + [last]) == Texts(init) + {last.value}
    ensures last.Err? ==> Ids(init + [last]) == Ids(init) && Texts(init + [last]) == Texts(init)
  {
    var lines := init + [last];
    assert forall j :: 0 <= j < |init| ==> lines[j] == init[j];
    assert lines[|init|] == last;
  }

  lemma {:induction false} IdsCount(lines: Lines)
    ensures |Ids(lines)| == |Texts(lines)| <= |lines|
    decreases |lines|
  {
    if |lines| > 0 {
      var init := lines[..|lines| - 1];
      var last := lines[|lines| - 1];
      assert lines == init + [last];
      IdsCount(init);
      IdsSnoc(init, last);
      if last.Ok? {
        assert Snp(last.value) in Ids(init) <==> last.value in Texts(init);
      }
    }
  }

  /** Repeated lines collapse into one key: the map has as many keys as there are distinct
      lines among the first fifty, and so at most fifty. */
  lemma ManifestSize(input: Lines)
    requires Manifest(input).Ok?
    ensures |Manifest(input).value| == |Texts(Read(input))|
    ensures |Manifest(input).value| <= |input| && |Manifest(input).value| <= LineLimit
  {
    var lines := Read(input);
    IdsCount(lines);
    assert Manifest(input).value.Keys == Ids(lines);
  }

  /** Lines after the fiftieth are never read and do not affect the result. */
  lemma OnlyFirstLinesMatter(input: Lines, more: Lines)
    requires |input| >= LineLimit
    ensures Manifest(input + more) == Manifest(input)
    ensures Manifest(input) == Manifest(input[..LineLimit])
  {
    assert Read(input + more) == Read(input);
  }

  /** An empty input gives an empty map. */
  lemma EmptyInput()
    ensures Manifest([]) == Ok(map[])
  {
  }
}
