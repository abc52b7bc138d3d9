/** The declaration text written by HgiShaderSection and HgiBaseGLShaderSection.
    Output streams are strings: a writer returns the text it appends.  The
    virtual WriteType is overridden by concrete sections; its text is the
    parameter `typeText` wherever a writer calls it. */
module ShaderSection {

  /** One entry of a `layout(...)` qualifier: `identifier` or `identifier = index`. */
  datatype Attribute = Attribute(identifier: string, index: string)

  datatype Section = Section(
    identifier: string,
    attributes: seq<Attribute>,
    defaultValue: string,
    arraySize: string,
    blockInstanceIdentifier: string)

  /** The GL section stores the array size a second time, beside the copy its
      base section keeps; WriteArraySize reads the base copy. */
  datatype GLSection = GLSection(base: Section, storageQualifier: string, arraySize: string)

  /** The five global hooks every GL section answers. */
  datatype GlobalHook =
    | GlobalIncludes
    | GlobalMacros
    | GlobalStructs
    | GlobalMemberDeclarations
    | GlobalFunctionDefinitions

  // ---------------------------------------------------------------- getters

  /** The attributes the section was built with, unchanged. */
  function GetAttributes(s: Section): (r: seq<Attribute>)
    ensures r == s.attributes
  {
    s.attributes
  }

  /** The default value the section was built with, unchanged. */
  function GetDefaultValue(s: Section): (r: string)
    ensures r == s.defaultValue
  {
    s.defaultValue
  }

  /** The identifier, written verbatim. */
  function WriteIdentifier(s: Section): (text: string)
    ensures text == s.identifier
  {
    s.identifier
  }

  /** The block instance identifier, written verbatim. */
  function WriteBlockInstanceIdentifier(s: Section): (text: string)
    ensures text == s.blockInstanceIdentifier
  {
    s.blockInstanceIdentifier
  }

  /** The base section writes no type. */
  function WriteType(s: Section): (text: string)
    ensures |text| == 0
  {
    ""
  }

  /** Recovers the array size from the text WriteArraySize wrote. */
  function ArraySizeOf(text: string): string
  {
    if |text| < 2 then "" else text[1..|text| - 1]
  }

  // ----------------------------------------------------------- constructors

  function NewSection(
    identifier: string,
    attributes: seq<Attribute>,
    defaultValue: string,
    arraySize: string,
    blockInstanceIdentifier: string): (s: Section)
    ensures WriteIdentifier(s) == identifier
    ensures GetAttributes(s) == attributes
    ensures GetDefaultValue(s) == defaultValue
    ensures ArraySizeOf(WriteArraySize(s)) == arraySize
    ensures WriteBlockInstanceIdentifier(s) == blockInstanceIdentifier
  {
    var s := Section(identifier, attributes, defaultValue, arraySize, blockInstanceIdentifier);
    ArraySizeRoundTrip(s);
    s
  }

  function NewGLSection(
    identifier: string,
    attributes: seq<Attribute>,
    storageQualifier: string,
    defaultValue: string,
    arraySize: string,
    blockInstanceIdentifier: string): (g: GLSection)
    ensures WriteIdentifier(g.base) == identifier
    ensures GetAttributes(g.base) == attributes
    ensures GetDefaultValue(g.base) == defaultValue
    ensures ArraySizeOf(WriteArraySize(g.base)) == arraySize
    ensures WriteBlockInstanceIdentifier(g.base) == blockInstanceIdentifier
    ensures g.storageQualifier == storageQualifier
    ensures g.arraySize == g.base.arraySize
  {
    GLSection(NewSection(identifier, attributes, defaultValue, arraySize, blockInstanceIdentifier),
              storageQualifier, arraySize)
  }

  // ------------------------------------------------------ base section text

  /** `[size]`, or nothing when the array size is empty. */
  function WriteArraySize(s: Section): (text: string)
    ensures text == "" <==> s.arraySize == ""
    ensures text != "" ==> text[0] == '[' && text[|text| - 1] == ']'
  {
    if s.arraySize == "" then "" else "[" + s.arraySize + "]"
  }

  /** What the getters and writers report is everything a section holds:
      building a section from them gives back the same section. */
  lemma GettersRecoverSection(s: Section)
    ensures NewSection(WriteIdentifier(s), GetAttributes(s), GetDefaultValue(s),
                       ArraySizeOf(WriteArraySize(s)), WriteBlockInstanceIdentifier(s)) == s
  {
    ArraySizeRoundTrip(s);
  }

  lemma ArraySizeRoundTrip(s: Section)
    ensures ArraySizeOf(WriteArraySize(s)) == s.arraySize
  {
    if s.arraySize != "" {
      var text := WriteArraySize(s);
      assert text[1..|text| - 1] == s.arraySize;
    }
  }

  /** Two sections write the same array-size text only when their sizes agree. */
  lemma ArraySizeInjective(s: Section, t: Section)
    requires WriteArraySize(s) == WriteArraySize(t)
    ensures s.arraySize == t.arraySize
  {
    ArraySizeRoundTrip(s);
    ArraySizeRoundTrip(t);
  }

  /** `type identifier[size];` with the type text of the concrete section. */
  function WriteDeclaration(s: Section, typeText: string): (text: string)
    ensures text == WriteParameter(s, typeText) + WriteArraySize(s) + ";"
  {
    typeText + " " + WriteIdentifier(s) + WriteArraySize(s) + ";"
  }

  /** `type identifier`, with no terminator. */
  function WriteParameter(s: Section, typeText: string): (text: string)
    ensures |text| == |typeText| + 1 + |s.identifier| && text[|typeText|] == ' '
    ensures typeText <= text && text[|typeText| + 1..] == s.identifier
  {
    typeText + " " + WriteIdentifier(s)
  }

  /** A declaration begins with the parameter text, ends with `;`, and the
      array size can be read back from the text between them. */
  lemma DeclarationExtendsParameter(s: Section, typeText: string)
    ensures var d := WriteDeclaration(s, typeText);
      var n := |WriteParameter(s, typeText)|;
      WriteParameter(s, typeText) <= d && n < |d| && d[|d| - 1] == ';'
      && ArraySizeOf(d[n..|d| - 1]) == s.arraySize
  {
    var d := WriteDeclaration(s, typeText);
    var n := |WriteParameter(s, typeText)|;
    assert d[n..|d| - 1] == WriteArraySize(s);
    ArraySizeRoundTrip(s);
  }

  /** With the base class's own (empty) type the declaration is ` identifier[size];`. */
  lemma BaseDeclarationShape(s: Section)
    ensures WriteDeclaration(s, WriteType(s)) == " " + s.identifier + WriteArraySize(s) + ";"
    ensures WriteParameter(s, WriteType(s)) == " " + s.identifier
  {
  }

  // -------------------------------------------------------- GL section text

  /** One layout entry: the identifier, then ` = index` only when the index is non-empty. */
  function RenderAttribute(a: Attribute): (text: string)
    ensures a.identifier <= text
    ensures a.index == "" <==> text == a.identifier
    ensures a.index != "" ==> text[|a.identifier|..] == " = " + a.index
  {
    if a.index == "" then a.identifier else a.identifier + " = " + a.index
  }

  /** The layout entries in input order, separated by `, `. */
  function JoinAttributes(attributes: seq<Attribute>): (text: string)
    ensures attributes == [] ==> text == ""
    ensures |text| >= 2 * (|attributes| - 1)
    decreases |attributes|
  {
    if |attributes| == 0 then ""
    else if |attributes| == 1 then RenderAttribute(attributes[0])
    else RenderAttribute(attributes[0]) + ", " + JoinAttributes(attributes[1..])
  }

  /** Joining two non-empty runs of attributes puts exactly one `, ` between them. */
  lemma {:induction false} JoinAttributesAppend(xs: seq<Attribute>, ys: seq<Attribute>)
    requires xs != [] && ys != []
    ensures JoinAttributes(xs + ys) == JoinAttributes(xs) + ", " + JoinAttributes(ys)
    decreases |xs|
  {
    if |xs| == 1 {
      assert (xs + ys)[1..] == ys;
    } else {
      assert (xs + ys)[1..] == xs[1..] + ys;
      JoinAttributesAppend(xs[1..], ys);
    }
  }

  /** `layout(entries) ` when there are attributes, nothing otherwise. */
  function LayoutText(attributes: seq<Attribute>): (text: string)
    ensures text == "" <==> attributes == []
  {
    if attributes == [] then "" else "layout(" + JoinAttributes(attributes) + ") "
  }

  /** `qualifier ` when the storage qualifier is non-empty, nothing otherwise. */
  function QualifierText(storageQualifier: string): (text: string)
    ensures text == "" <==> storageQualifier == ""
    ensures storageQualifier != "" ==> text == storageQualifier + " "
  {
    if storageQualifier == "" then "" else storageQualifier + " "
  }

  /** The full GL declaration: layout, storage qualifier, type, identifier,
      array size, then `;` and a newline. */
  function GLDeclaration(g: GLSection, typeText: string): (text: string)
    ensures text == LayoutText(GetAttributes(g.base)) + QualifierText(g.storageQualifier)
                    + WriteDeclaration(g.base, typeText) + "\n"
    ensures GetAttributes(g.base) == [] && g.storageQualifier == ""
            ==> text == WriteDeclaration(g.base, typeText) + "\n"
  {
    var decl := typeText + " " + WriteIdentifier(g.base) + WriteArraySize(g.base) + ";";
    assert decl == WriteDeclaration(g.base, typeText);
    LayoutText(GetAttributes(g.base)) + QualifierText(g.storageQualifier) + decl + "\n"
  }

  /** With attributes the declaration opens with `layout(`, the joined entries and `) `;
      it always closes with `;` and a newline. */
  lemma GLDeclarationFrame(g: GLSection, typeText: string)
    ensures var d := GLDeclaration(g, typeText);
      |d| >= 2 && d[|d| - 2..] == ";\n"
    ensures var d := GLDeclaration(g, typeText);
      g.base.attributes != [] ==> "layout(" + JoinAttributes(g.base.attributes) + ") " <= d
  {
    var layout := LayoutText(g.base.attributes);
    var decl := WriteDeclaration(g.base, typeText);
    var d := GLDeclaration(g, typeText);
    assert decl[|decl| - 1] == ';';
    EndsWithTerminator(layout + QualifierText(g.storageQualifier), decl);
    assert d[..|layout|] == layout;
  }

  /** A text ending in `;`, followed by a newline, ends in `;\n` after any prefix. */
  lemma EndsWithTerminator(prefix: string, decl: string)
    requires |decl| >= 1 && decl[|decl| - 1] == ';'
    ensures var t := prefix + decl + "\n"; t[|t| - 2..] == ";\n"
  {
    var t := prefix + decl + "\n";
    assert t[|t| - 2] == decl[|decl| - 1];
  }

  /** The GL parameter: the base parameter with a `;` terminator. */
  function GLWriteParameter(g: GLSection, typeText: string): (text: string)
    ensures text == WriteParameter(g.base, typeText) + ";"
  {
    typeText + " " + WriteIdentifier(g.base) + ";"
  }

  /** Every global hook of a GL section declines and writes nothing. */
  function Visit(g: GLSection, hook: GlobalHook, ss: string): (r: (bool, string))
    ensures !r.0 && r.1 == ss
  {
    (false, ss)
  }

  /** Writes the GL declaration onto the stream `ss` step by step. */
  method GLWriteDeclaration(g: GLSection, typeText: string, ss: string) returns (out: string)
    ensures out == ss + GLDeclaration(g, typeText)
  {
    out := WriteLayout(GetAttributes(g.base), ss);
    ghost var written := LayoutText(GetAttributes(g.base));
    if g.storageQualifier != "" {
      out := Append(out, g.storageQualifier + " ", ss, written);
    }
    written := written + QualifierText(g.storageQualifier);
    out := Append(out, typeText, ss, written);
    written := written + typeText;
    out := Append(out, " ", ss, written);
    written := written + " ";
    out := Append(out, WriteIdentifier(g.base), ss, written);
    written := written + WriteIdentifier(g.base);
    out := Append(out, WriteArraySize(g.base), ss, written);
    written := written + WriteArraySize(g.base);
    out := Append(out, ";\n", ss, written);
    GLDeclarationPieces(g, typeText);
  }

  /** The GL declaration as the pieces the stream writer appends, in order. */
  lemma GLDeclarationPieces(g: GLSection, typeText: string)
    ensures GLDeclaration(g, typeText)
         == LayoutText(GetAttributes(g.base)) + QualifierText(g.storageQualifier) + typeText + " "
            + WriteIdentifier(g.base) + WriteArraySize(g.base) + ";\n"
  {
    var prefix := LayoutText(GetAttributes(g.base)) + QualifierText(g.storageQualifier);
    var decl := typeText + " " + WriteIdentifier(g.base) + WriteArraySize(g.base) + ";";
    assert GLDeclaration(g, typeText) == prefix + decl + "\n";
  }

  /** Writes `layout(` and the entries, with a separator before every entry but
      the first, then `) `; writes nothing when there are no attributes. */
  method WriteLayout(attributes: seq<Attribute>, ss: string) returns (out: string)
    ensures out == ss + LayoutText(attributes)
  {
    out := ss;
    if |attributes| > 0 {
      out := out + "layout(";
      ghost var open := out;
      var i := 0;
      while i < |attributes|
        invariant 0 <= i <= |attributes|
        invariant out == open + JoinAttributes(attributes[..i])
      {
        ghost var written := JoinAttributes(attributes[..i]) + (if i > 0 then ", " else "");
        if i > 0 {
          out := Append(out, ", ", open, JoinAttributes(attributes[..i]));
        } else {
          assert written == JoinAttributes(attributes[..i]);
        }
        out := WriteAttribute(attributes[i], out, open, written);
        JoinAttributesStep(attributes, i);
        i := i + 1;
      }
      assert attributes[..i] == attributes;
      AppendAssoc(ss, "layout(", JoinAttributes(attributes));
      out := Append(out, ") ", ss, "layout(" + JoinAttributes(attributes));
    }
  }

  /** Writes one layout entry: the identifier, then ` = ` and the index when the
      index is non-empty. */
  method WriteAttribute(a: Attribute, out: string, ghost ss: string, ghost written: string) returns (r: string)
    requires out == ss + written
    ensures r == ss + (written + RenderAttribute(a))
  {
    r := Append(out, a.identifier, ss, written);
    if a.index != "" {
      r := Append(r, " = ", ss, written + a.identifier);
      r := Append(r, a.index, ss, written + a.identifier + " = ");
      AppendAssoc(written, a.identifier + " = ", a.index);
      AppendAssoc(a.identifier, " = ", a.index);
      AppendAssoc(written, a.identifier, " = ");
    }
  }

  /** One write onto a stream that already holds `ss` followed by `written`. */
  method Append(out: string, piece: string, ghost ss: string, ghost written: string) returns (r: string)
    requires out == ss + written
    ensures r == out + piece && r == ss + (written + piece)
  {
    r := out + piece;
    AppendAssoc(ss, written, piece);
  }

  lemma AppendAssoc(a: string, b: string, c: string)
    ensures a + (b + c) == (a + b) + c
  {
  }

  /** Adding the entry at position i to the joined prefix of the attributes. */
  lemma JoinAttributesStep(attributes: seq<Attribute>, i: nat)
    requires i < |attributes|
    ensures JoinAttributes(attributes[..i + 1])
         == JoinAttributes(attributes[..i]) + (if i > 0 then ", " else "") + RenderAttribute(attributes[i])
  {
    assert attributes[..i + 1] == attributes[..i] + [attributes[i]];
    if i > 0 {
      JoinAttributesAppend(attributes[..i], [attributes[i]]);
    }
  }
}
