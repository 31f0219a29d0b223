/**
 * The geometry half of main.cpp's draw_text: for every character of the
 * string it appends one quad (two triangles, six vertices) to a vertex
 * buffer and the matching texture coordinates to a second buffer, then asks
 * for six vertices per character to be drawn. The GL calls that upload and
 * draw the buffers are not modelled; the method returns what they receive.
 */
module Text {
  import opened Constants
  import opened CMath

  /** A C++ `char` as `(int)text[i]` sees it: signed on the game's platforms. */
  type CChar = c: int | -128 <= c < 128

  /** The width and height of one glyph cell in texture space. */
  const CELL: real := 1.0 / FONTBANK_SIZE as real

  /** The column of a glyph in the font bank, with C++'s truncating `%`. */
  function Column(code: CChar): int
  {
    TruncMod(code, FONTBANK_SIZE)
  }

  /** The row of a glyph in the font bank, with C++'s truncating `/`. */
  function Row(code: CChar): int
  {
    TruncDiv(code, FONTBANK_SIZE)
  }

  /** The twelve texture coordinates of one glyph quad, as (u, v) pairs. */
  function GlyphUVs(code: CChar): seq<real>
  {
    var u := Column(code) as real / FONTBANK_SIZE as real;
    var v := Row(code) as real / FONTBANK_SIZE as real;
    [ u, v,
      u, v + CELL,
      u + CELL, v,
      u + CELL, v + CELL,
      u + CELL, v,
      u, v + CELL ]
  }

  /** The twelve vertex coordinates of the quad of the character at `index`, as (x, y) pairs. */
  function GlyphVertices(index: nat, fontSize: real, spacing: real): seq<real>
  {
    var offset := (fontSize + spacing) * index as real;
    var left := offset + -0.5 * fontSize;
    var right := offset + 0.5 * fontSize;
    [ left, 0.5 * fontSize,
      left, -0.5 * fontSize,
      right, 0.5 * fontSize,
      right, -0.5 * fontSize,
      right, 0.5 * fontSize,
      left, -0.5 * fontSize ]
  }

  /**
   * For an ASCII code the truncating operators agree with Euclidean ones, so
   * the glyph is cell (code mod 16, code div 16) of the font bank, and its
   * texture rectangle lies inside the upper half of the texture.
   */
  lemma AsciiGlyphCell(code: CChar)
    requires code >= 0
    ensures Column(code) == code % FONTBANK_SIZE && Row(code) == code / FONTBANK_SIZE
    ensures var uv := GlyphUVs(code);
            0.0 <= uv[0] && uv[4] <= 1.0 && 0.0 <= uv[1] && uv[3] <= 0.5
  {
  }

  /**
   * The quad is not mirrored: each of its six vertices takes the texture
   * corner on its own side, left vertices the left edge u, top vertices the
   * top edge v.
   */
  lemma QuadCornersMatch(index: nat, code: CChar, fontSize: real, spacing: real)
    requires fontSize > 0.0
    ensures var xy := GlyphVertices(index, fontSize, spacing);
            var uv := GlyphUVs(code);
            forall j :: 0 <= j < 6 ==>
              (xy[2 * j] == xy[0] <==> uv[2 * j] == uv[0]) &&
              (xy[2 * j + 1] == xy[1] <==> uv[2 * j + 1] == uv[1])
  {
    var xy := GlyphVertices(index, fontSize, spacing);
    var uv := GlyphUVs(code);
    assert xy[0] < xy[4] && xy[3] < xy[1];
    assert uv[0] < uv[4] && uv[1] < uv[3];
  }

  /** Appending a group of twelve keeps the earlier groups and adds the new one after them. */
  lemma AppendGroup(buffer: seq<real>, group: seq<real>, n: nat)
    requires |buffer| == 12 * n && |group| == 12
    ensures forall j :: 0 <= j < n ==>
              (buffer + group)[12 * j .. 12 * j + 12] == buffer[12 * j .. 12 * j + 12]
    ensures (buffer + group)[12 * n .. 12 * n + 12] == group
  {
    assert (buffer + group)[..12 * n] == buffer;
  }

  /** The buffer made by appending groups one after another, as draw_text's vector inserts do. */
  function Flatten(groups: seq<seq<real>>): seq<real>
  {
    if groups == [] then [] else Flatten(groups[..|groups| - 1]) + groups[|groups| - 1]
  }

  /** Appending a group to the list appends it to the buffer. */
  lemma FlattenAppend(groups: seq<seq<real>>, group: seq<real>)
    ensures Flatten(groups + [group]) == Flatten(groups) + group
  {
    assert (groups + [group])[..|groups|] == groups;
  }

  /** A buffer of twelve-float groups holds group i at floats 12 i to 12 i + 11. */
  lemma {:induction false} FlattenGroups(groups: seq<seq<real>>)
    requires forall i :: 0 <= i < |groups| ==> |groups[i]| == 12
    ensures |Flatten(groups)| == 12 * |groups|
    ensures forall i :: 0 <= i < |groups| ==> Flatten(groups)[12 * i .. 12 * i + 12] == groups[i]
  {
    if groups != [] {
      var n := |groups| - 1;
      var prefix := groups[..n];
      FlattenGroups(prefix);
      assert Flatten(groups) == Flatten(prefix) + groups[n];
      AppendGroup(Flatten(prefix), groups[n], n);
      forall i | 0 <= i < n
        ensures Flatten(groups)[12 * i .. 12 * i + 12] == groups[i]
      {
        assert prefix[i] == groups[i];
      }
    }
  }

  /**
   * Builds the two buffers draw_text hands to GL: twelve vertex floats and
   * twelve texture floats per character, the i-th group being the i-th
   * character's quad, and a draw count of six vertices per character.
   */
  method DrawText(text: seq<CChar>, fontSize: real, spacing: real)
    returns (vertices: seq<real>, textureCoordinates: seq<real>, vertexCount: int)
    ensures |vertices| == 12 * |text| && |textureCoordinates| == 12 * |text|
    ensures forall i :: 0 <= i < |text| ==>
              vertices[12 * i .. 12 * i + 12] == GlyphVertices(i, fontSize, spacing)
    ensures forall i :: 0 <= i < |text| ==>
              textureCoordinates[12 * i .. 12 * i + 12] == GlyphUVs(text[i])
    ensures vertexCount == 6 * |text|
  {
    vertices := [];
    textureCoordinates := [];
    ghost var quads: seq<seq<real>>, cells: seq<seq<real>> := [], [];
    for i := 0 to |text|
      invariant |quads| == i && |cells| == i
      invariant forall j :: 0 <= j < i ==> quads[j] == GlyphVertices(j, fontSize, spacing)
      invariant forall j :: 0 <= j < i ==> cells[j] == GlyphUVs(text[j])
      invariant vertices == Flatten(quads) && textureCoordinates == Flatten(cells)
    {
      FlattenAppend(quads, GlyphVertices(i, fontSize, spacing));
      FlattenAppend(cells, GlyphUVs(text[i]));
      vertices := vertices + GlyphVertices(i, fontSize, spacing);
      textureCoordinates := textureCoordinates + GlyphUVs(text[i]);
      quads := quads + [GlyphVertices(i, fontSize, spacing)];
      cells := cells + [GlyphUVs(text[i])];
    }
    FlattenGroups(quads);
    FlattenGroups(cells);
    vertexCount := |text| * 6;
  }
}
