/** Frontmatter framing: a note may start with a YAML block between `---` lines.
    Opening a note splits it off with the pattern `^---\n([\s\S]*?)\n---\n([\s\S]*)$`,
    saving puts it back. YAML itself is a parameter: a loader that may fail and
    a dumper. */
module Frontmatter {
  import opened Base
  import opened Text

  /** The note's properties: keys with their values (values are kept as text). */
  type Fields = map<string, string>

  /** `js-yaml`'s `load` (which may throw) and `dump`. */
  datatype Yaml = Yaml(load: string -> Result<Fields>, dump: Fields -> string)

  const Opening: string := "---\n"
  const Closing: string := "\n---\n"

  /** The two captured groups of a match: the YAML text and the body. */
  datatype Split = Split(yaml: string, body: string)

  /** The closing delimiter occurs nowhere inside `y` or straddling its end,
      which makes `y` the shortest capture the lazy group can take. */
  predicate Shortest(y: string) {
    forall j :: 0 <= j < |y| ==> !OccursAt(y + Closing, Closing, j)
  }

  /** The match: the content must begin with the opening line; the lazy first
      group ends at the first closing delimiter found from offset 4 on (possibly
      straight away), and the second group takes the rest up to the end. */
  function SplitFrontmatter(content: string): Option<Split> {
    if !StartsWith(content, Opening) then None
    else
      var i := IndexOfFrom(content, Closing, 4);
      if i < 0 then None else Some(Split(content[4..i], content[i + 5..]))
  }

  /** Offsets inside a framed text line up with offsets in its YAML part. */
  lemma FramedOffsets(y: string, b: string, j: int)
    requires 0 <= j < |y|
    ensures OccursAt(Opening + y + Closing + b, Closing, j + 4) <==> OccursAt(y + Closing, Closing, j)
  {
    var c := Opening + y + Closing + b;
    assert c[j + 4..j + 9] == (y + Closing)[j..j + 5];
  }

  /** A match always frames its groups, the YAML part is the shortest one, and
      a text that is not matched has no opening line or no closing delimiter. */
  lemma SplitSound(content: string)
    ensures var r := SplitFrontmatter(content);
      && (r.Some? ==> content == Opening + r.value.yaml + Closing + r.value.body && Shortest(r.value.yaml))
      && (r.None? ==> !StartsWith(content, Opening) || forall j :: 4 <= j ==> !OccursAt(content, Closing, j))
  {
    var r := SplitFrontmatter(content);
    if StartsWith(content, Opening) {
      IndexOfFromSpec(content, Closing, 4);
      var i := IndexOfFrom(content, Closing, 4);
      if i >= 0 {
        var y := content[4..i];
        var b := content[i + 5..];
        assert content == content[..4] + y + content[i..i + 5] + b;
        forall j | 0 <= j < |y|
          ensures !OccursAt(y + Closing, Closing, j)
        {
          FramedOffsets(y, b, j);
        }
      }
    }
  }

  /** Every framed text is matched, and the groups are the frame's parts, as long
      as the YAML part is the shortest one. */
  lemma SplitComplete(y: string, b: string)
    requires Shortest(y)
    ensures SplitFrontmatter(Opening + y + Closing + b) == Some(Split(y, b))
  {
    var c := Opening + y + Closing + b;
    assert c[..4] == Opening;
    IndexOfFromSpec(c, Closing, 4);
    assert OccursAt(c, Closing, 4 + |y|) by {
      assert c[4 + |y|..4 + |y| + 5] == Closing;
    }
    forall j | 4 <= j < 4 + |y|
      ensures !OccursAt(c, Closing, j)
    {
      FramedOffsets(y, b, j - 4);
    }
    assert IndexOfFrom(c, Closing, 4) == 4 + |y|;
    assert c[4..4 + |y|] == y;
    assert c[4 + |y| + 5..] == b;
  }

  /** An opened note: its properties and the text the editor shows. */
  datatype Document = Document(frontmatter: Fields, body: string)

  /** `openFile`: a matched note whose YAML loads gives its fields and the body
      after the frame; an unmatched note, or one whose YAML fails to load, gives
      no fields and the whole text as the body. */
  function Parse(content: string, yaml: Yaml): Document {
    var m := SplitFrontmatter(content);
    if m.None? then Document(map[], content)
    else
      var fields := yaml.load(m.value.yaml);
      if fields.Ok? then Document(fields.value, m.value.body) else Document(map[], content)
  }

  /** `saveToDisk`: with at least one field, the dumped YAML between `---` lines
      followed by the body; with none, the body alone. */
  function Serialize(doc: Document, yaml: Yaml): string {
    if |doc.frontmatter| > 0 then Opening + yaml.dump(doc.frontmatter) + "---\n" + doc.body else doc.body
  }

  /** What a parsed note means: an unmatched or unloadable note is kept whole,
      and a loaded one is exactly the frame around its YAML and body. */
  lemma ParseSpec(content: string, yaml: Yaml)
    ensures var d := Parse(content, yaml);
      || (d == Document(map[], content))
      || (exists y :: Shortest(y) && content == Opening + y + Closing + d.body && yaml.load(y) == Ok(d.frontmatter))
  {
    SplitSound(content);
  }

  /** Saving and reopening a note with properties gives the same properties and
      body back, when the dump ends in a newline, its text before that newline is
      the shortest capture, and loading it returns the same fields. */
  lemma SaveThenOpen(doc: Document, yaml: Yaml, y: string)
    requires |doc.frontmatter| > 0
    requires yaml.dump(doc.frontmatter) == y + "\n"
    requires Shortest(y)
    requires yaml.load(y) == Ok(doc.frontmatter)
    ensures Parse(Serialize(doc, yaml), yaml) == doc
  {
    assert Serialize(doc, yaml) == Opening + y + Closing + doc.body;
    SplitComplete(y, doc.body);
  }

  /** A note without properties is saved as its bare body, and reopens unchanged
      as long as the body does not itself begin with a frame. */
  lemma SaveThenOpenBare(body: string, yaml: Yaml)
    requires SplitFrontmatter(body).None?
    ensures Serialize(Document(map[], body), yaml) == body
    ensures Parse(Serialize(Document(map[], body), yaml), yaml) == Document(map[], body)
  {
  }
}
