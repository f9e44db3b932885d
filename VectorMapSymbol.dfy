/**
 * A vector map symbol: a primitive type plus an optional, shared buffer of
 * vertices (and indices), and the generators that build circle, ring and
 * 3D-model buffers and install them on a symbol.
 *
 * Floating-point coordinates are kept symbolic (see Coord): the model states
 * which vertex gets which coordinate, not the value of a cosine.
 */
module VectorMapSymbol {
  import opened CommonTypes

  datatype PrimitiveType = Invalid | Triangles | TriangleFan | LineLoop

  datatype ScaleType = Raw | In31 | InMeters

  /**
   * A float coordinate of a generated vertex, as the term it is computed from:
   * a constant, or radius * cos / radius * sin of the angle of point
   * `pointIdx` when a full turn is split into `pointsCount` equal steps.
   */
  datatype Coord =
    | Const(value: real)
    | CosOnCircle(radius: real, pointIdx: nat, pointsCount: nat)
    | SinOnCircle(radius: real, pointIdx: nat, pointsCount: nat)

  /** The default colour of generated circles and rings. */
  const OpaqueWhite: ColorARGB := ColorARGB(1.0, 1.0, 1.0, 1.0)

  /** The elevation marking a vertex that lies on the terrain, -13e9. */
  const AbsentElevation: Coord := Const(-13000000000.0)

  /** A plain vertex: x, elevation y, z and a colour. */
  datatype Vertex = Vertex(x: Coord, y: Coord, z: Coord, color: ColorARGB)

  datatype Vector3 = Vector3(x: real, y: real, z: real)

  datatype VertexWithNormals = VertexWithNormals(position: Vector3, normal: Vector3, color: ColorARGB)

  /** A vertex of a 3D model; materialIndex -1 means "no material, use my own colour". */
  datatype Model3DVertex = Model3DVertex(position: Vector3, normal: Vector3, color: ColorARGB, materialIndex: int)

  datatype Material = Material(name: string, color: ColorARGB)

  datatype Model3D = Model3D(vertices: seq<Model3DVertex>, materials: seq<Material>)

  /** Every material index of the model is -1 or names one of its materials. */
  predicate ValidModel3D(model: Model3D)
  {
    forall i :: 0 <= i < |model.vertices| ==> HasValidMaterial(model, model.vertices[i])
  }

  predicate HasValidMaterial(model: Model3D, v: Model3DVertex)
  {
    v.materialIndex == -1 || 0 <= v.materialIndex < |model.materials|
  }

  // ---------------------------------------------------------------------------
  // Vertex specifications
  // ---------------------------------------------------------------------------

  /** The centre of a circle: x = z = 0, on the terrain. */
  function CentreVertex(color: ColorARGB): Vertex
  {
    Vertex(Const(0.0), AbsentElevation, Const(0.0), color)
  }

  /** Point `pointIdx` of a circle of `pointsCount` points, on the terrain. */
  function RimVertex(color: ColorARGB, radius: real, pointIdx: nat, pointsCount: nat): Vertex
  {
    Vertex(CosOnCircle(radius, pointIdx, pointsCount), AbsentElevation, SinOnCircle(radius, pointIdx, pointsCount), color)
  }

  /**
   * The first `n` points of a circle of `pointsCount` points, in the order
   * the generators emit them.
   */
  function CirclePoints(color: ColorARGB, radius: real, n: nat, pointsCount: nat): (vs: seq<Vertex>)
    ensures |vs| == n
    ensures forall i :: 0 <= i < n ==> vs[i].y == AbsentElevation && vs[i].color == color
    ensures forall i :: 0 <= i < n ==>
              vs[i].x == CosOnCircle(radius, i, pointsCount) && vs[i].z == SinOnCircle(radius, i, pointsCount)
  {
    if n == 0 then []
    else CirclePoints(color, radius, n - 1, pointsCount) + [RimVertex(color, radius, n - 1, pointsCount)]
  }

  /**
   * The vertices of a filled circle drawn as a triangle fan: the centre, the
   * ring, and a last vertex that closes the fan on the first ring point.
   */
  function CircleVertices(color: ColorARGB, pointsCount: nat, radius: real): (vs: seq<Vertex>)
    requires pointsCount > 0
    ensures |vs| == pointsCount + 2
    ensures vs[0].x == Const(0.0) && vs[0].z == Const(0.0)
    ensures forall i :: 0 <= i < |vs| ==> vs[i].y == AbsentElevation && vs[i].color == color
    ensures forall i :: 1 <= i <= pointsCount ==>
              vs[i].x == CosOnCircle(radius, i - 1, pointsCount) && vs[i].z == SinOnCircle(radius, i - 1, pointsCount)
    ensures vs[pointsCount + 1].x == vs[1].x && vs[pointsCount + 1].z == vs[1].z
  {
    var ring := CirclePoints(color, radius, pointsCount, pointsCount);
    [CentreVertex(color)] + ring + [Vertex(ring[0].x, AbsentElevation, ring[0].z, color)]
  }

  /** The number of values of a 32-bit unsigned integer. */
  const UInt32Range: nat := 0x1_0000_0000

  /**
   * The vertex count the circle generator allocates, as written: `pointsCount`
   * is a 32-bit unsigned integer, so `pointsCount + 2` wraps around.
   */
  function AllocatedCircleVertexCount(pointsCount: nat): (n: nat)
    requires pointsCount < UInt32Range
    ensures n == pointsCount + 2 <==> pointsCount < UInt32Range - 2
    ensures pointsCount >= UInt32Range - 2 ==> n <= 1
  {
    (pointsCount + 2) % UInt32Range
  }

  /**
   * For the two largest 32-bit point counts the wrapped allocation is smaller
   * than the fan the generator then writes into it: for 2^32 - 1 points it
   * holds one vertex, while the fan has 2^32 + 1.
   */
  lemma CircleAllocationWraps(color: ColorARGB, pointsCount: nat, radius: real)
    requires UInt32Range - 2 <= pointsCount < UInt32Range
    ensures AllocatedCircleVertexCount(pointsCount) < |CircleVertices(color, pointsCount, radius)|
  {
  }

  /** The fan of a circle is built on exactly the vertices of the ring of the same size. */
  lemma CircleContainsRing(color: ColorARGB, pointsCount: nat, radius: real)
    requires pointsCount > 0
    ensures CircleVertices(color, pointsCount, radius)[1..pointsCount + 1] == CirclePoints(color, radius, pointsCount, pointsCount)
  {
  }

  /** The colour of a model vertex when no custom colours are given. */
  function ModelColor(model: Model3D, v: Model3DVertex): ColorARGB
    requires HasValidMaterial(model, v)
  {
    if v.materialIndex == -1 then v.color else model.materials[v.materialIndex].color
  }

  /**
   * The colour a model vertex is drawn with: its own colour when it has no
   * material; otherwise the custom colour registered under its material's
   * name, falling back to the material's colour.
   */
  function VertexColor(model: Model3D, v: Model3DVertex, customMaterialColors: map<string, ColorARGB>): (c: ColorARGB)
    requires HasValidMaterial(model, v)
    ensures v.materialIndex == -1 ==> c == v.color
    ensures v.materialIndex != -1 && model.materials[v.materialIndex].name in customMaterialColors
            ==> c == customMaterialColors[model.materials[v.materialIndex].name]
    ensures v.materialIndex != -1 && model.materials[v.materialIndex].name !in customMaterialColors
            ==> c == model.materials[v.materialIndex].color
  {
    if v.materialIndex == -1 then
      v.color
    else
      var material := model.materials[v.materialIndex];
      if material.name in customMaterialColors then customMaterialColors[material.name] else material.color
  }

  /** Without custom colours every vertex keeps the colour the model gives it. */
  lemma NoCustomColorsKeepModelColors(model: Model3D, v: Model3DVertex)
    requires HasValidMaterial(model, v)
    ensures VertexColor(model, v, map[]) == ModelColor(model, v)
  {
  }

  /** A custom colour for a vertex's material overrides the material's own colour. */
  lemma CustomColorOverridesMaterial(model: Model3D, v: Model3DVertex, customMaterialColors: map<string, ColorARGB>, color: ColorARGB)
    requires HasValidMaterial(model, v)
    requires v.materialIndex != -1
    ensures VertexColor(model, v, customMaterialColors[model.materials[v.materialIndex].name := color]) == color
  {
  }

  /** A custom colour never changes a vertex that has no material. */
  lemma CustomColorsIgnoredWithoutMaterial(model: Model3D, v: Model3DVertex, customMaterialColors: map<string, ColorARGB>)
    requires v.materialIndex == -1
    ensures VertexColor(model, v, customMaterialColors) == v.color
  {
  }

  // ---------------------------------------------------------------------------
  // Buffers and symbols
  // ---------------------------------------------------------------------------

  /** A vertex buffer: plain vertices or vertices with normals, and optional indices. */
  class VerticesAndIndices {
    var position31: Option<PointI>
    var vertices: array?<Vertex>
    var verticesWithNormals: array?<VertexWithNormals>
    var verticesCount: nat
    var indices: array?<int>
    var indicesCount: nat
    var partSizes: Option<seq<int>>
    var zoomLevel: ZoomLevel
    var isDenseObject: bool

    constructor()
      ensures position31 == None
      ensures vertices == null && verticesWithNormals == null && verticesCount == 0
      ensures indices == null && indicesCount == 0
      ensures partSizes == None
      ensures zoomLevel == InvalidZoomLevel
      ensures !isDenseObject
    {
      position31 := None;
      vertices := null;
      verticesWithNormals := null;
      verticesCount := 0;
      indices := null;
      indicesCount := 0;
      partSizes := None;
      zoomLevel := InvalidZoomLevel;
      isDenseObject := false;
    }

    /** No indices, no position, no part sizes and no zoom: what a generator leaves untouched. */
    predicate HasNoIndicesOrPlacement()
      reads this
    {
      && indices == null && indicesCount == 0
      && position31 == None && partSizes == None
      && zoomLevel == InvalidZoomLevel
    }

    /** The buffer holds exactly `vs` as plain vertices and nothing else. */
    predicate HoldsVertices(vs: seq<Vertex>)
      reads this, vertices
    {
      && vertices != null
      && verticesCount == vertices.Length
      && vertices[..] == vs
      && verticesWithNormals == null
      && HasNoIndicesOrPlacement()
      && !isDenseObject
    }
  }

  class VectorMapSymbol {
    var verticesAndIndices: VerticesAndIndices?
    var primitiveType: PrimitiveType
    var scaleType: ScaleType
    var scale: real

    constructor()
      ensures verticesAndIndices == null
      ensures primitiveType == PrimitiveType.Invalid
      ensures scaleType == ScaleType.Raw
      ensures scale == 1.0
    {
      verticesAndIndices := null;
      primitiveType := PrimitiveType.Invalid;
      scaleType := ScaleType.Raw;
      scale := 1.0;
    }

    /** The installed buffer, if any; shared with the caller. */
    function GetVerticesAndIndices(): (r: VerticesAndIndices?)
      reads this
      ensures r == verticesAndIndices
    {
      verticesAndIndices
    }

    /** Installs `v` (possibly null) as the symbol's buffer; nothing else changes. */
    method SetVerticesAndIndices(v: VerticesAndIndices?)
      modifies this`verticesAndIndices
      ensures GetVerticesAndIndices() == v
    {
      verticesAndIndices := v;
    }

    /** Drops the symbol's buffer; nothing else changes. */
    method ReleaseVerticesAndIndices()
      modifies this`verticesAndIndices
      ensures GetVerticesAndIndices() == null
    {
      verticesAndIndices := null;
    }

    /**
     * Builds a filled circle of `pointsCount` rim points as a triangle fan and
     * installs it; with no points, only drops the current buffer.
     */
    static method GenerateCirclePrimitive(mapSymbol: VectorMapSymbol, color: ColorARGB := OpaqueWhite,
                                   pointsCount: nat := 360, radius: real := 1.0)
      modifies mapSymbol
      ensures mapSymbol.scaleType == old(mapSymbol.scaleType) && mapSymbol.scale == old(mapSymbol.scale)
      ensures pointsCount == 0 ==>
                && mapSymbol.GetVerticesAndIndices() == null
                && mapSymbol.primitiveType == old(mapSymbol.primitiveType)
      ensures pointsCount > 0 ==>
                && mapSymbol.primitiveType == PrimitiveType.TriangleFan
                && mapSymbol.verticesAndIndices != null
                && fresh(mapSymbol.verticesAndIndices)
                && fresh(mapSymbol.verticesAndIndices.vertices)
                && mapSymbol.verticesAndIndices.HoldsVertices(CircleVertices(color, pointsCount, radius))
    {
      if pointsCount == 0 {
        mapSymbol.ReleaseVerticesAndIndices();
        return;
      }

      mapSymbol.primitiveType := PrimitiveType.TriangleFan;

      var verticesAndIndices := new VerticesAndIndices();
      // A fan reuses no vertex, so there are no indices
      verticesAndIndices.indices := null;
      verticesAndIndices.indicesCount := 0;

      verticesAndIndices.verticesCount := pointsCount + 2;
      var vertices := new Vertex[verticesAndIndices.verticesCount];
      verticesAndIndices.vertices := vertices;
      var p := 0;  // the vertex being written

      // The centre
      vertices[p] := Vertex(Const(0.0), AbsentElevation, Const(0.0), color);
      p := p + 1;

      // Every rim point
      var pointIdx := 0;
      while pointIdx < pointsCount
        modifies vertices
        invariant 0 <= pointIdx <= pointsCount
        invariant p == pointIdx + 1
        invariant vertices[0] == CentreVertex(color)
        invariant forall i :: 1 <= i < p ==> vertices[i] == RimVertex(color, radius, i - 1, pointsCount)
      {
        vertices[p] := Vertex(CosOnCircle(radius, pointIdx, pointsCount), AbsentElevation,
                              SinOnCircle(radius, pointIdx, pointsCount), color);
        p := p + 1;
        pointIdx := pointIdx + 1;
      }

      // Close the fan on the first rim point
      vertices[p] := Vertex(vertices[1].x, AbsentElevation, vertices[1].z, color);

      ghost var expected := CircleVertices(color, pointsCount, radius);
      assert forall i :: 0 <= i < vertices.Length ==> vertices[i] == expected[i];
      assert vertices[..] == expected;
      mapSymbol.SetVerticesAndIndices(verticesAndIndices);
    }

    /**
     * Builds a ring of `pointsCount` points as a line loop and installs it;
     * with no points, only drops the current buffer.
     */
    static method GenerateRingLinePrimitive(mapSymbol: VectorMapSymbol, color: ColorARGB := OpaqueWhite,
                                   pointsCount: nat := 360, radius: real := 1.0)
      modifies mapSymbol
      ensures mapSymbol.scaleType == old(mapSymbol.scaleType) && mapSymbol.scale == old(mapSymbol.scale)
      ensures pointsCount == 0 ==>
                && mapSymbol.GetVerticesAndIndices() == null
                && mapSymbol.primitiveType == old(mapSymbol.primitiveType)
      ensures pointsCount > 0 ==>
                && mapSymbol.primitiveType == PrimitiveType.LineLoop
                && mapSymbol.verticesAndIndices != null
                && fresh(mapSymbol.verticesAndIndices)
                && fresh(mapSymbol.verticesAndIndices.vertices)
                && mapSymbol.verticesAndIndices.HoldsVertices(CirclePoints(color, radius, pointsCount, pointsCount))
    {
      if pointsCount == 0 {
        mapSymbol.ReleaseVerticesAndIndices();
        return;
      }

      mapSymbol.primitiveType := PrimitiveType.LineLoop;

      var verticesAndIndices := new VerticesAndIndices();
      // A line loop reuses no vertex, so there are no indices
      verticesAndIndices.indices := null;
      verticesAndIndices.indicesCount := 0;

      verticesAndIndices.verticesCount := pointsCount;
      var vertices := new Vertex[verticesAndIndices.verticesCount];
      verticesAndIndices.vertices := vertices;
      var p := 0;  // the vertex being written

      var pointIdx := 0;
      while pointIdx < pointsCount
        modifies vertices
        invariant 0 <= pointIdx <= pointsCount
        invariant p == pointIdx
        invariant forall i :: 0 <= i < p ==> vertices[i] == RimVertex(color, radius, i, pointsCount)
      {
        vertices[p] := Vertex(CosOnCircle(radius, pointIdx, pointsCount), AbsentElevation,
                              SinOnCircle(radius, pointIdx, pointsCount), color);
        p := p + 1;
        pointIdx := pointIdx + 1;
      }

      ghost var expected := CirclePoints(color, radius, pointsCount, pointsCount);
      assert forall i :: 0 <= i < vertices.Length ==> vertices[i] == expected[i];
      assert vertices[..] == expected;
      mapSymbol.SetVerticesAndIndices(verticesAndIndices);
    }

    /**
     * Copies a 3D model into a fresh buffer of vertices with normals, drawn as
     * triangles, colouring each vertex by VertexColor, and installs it.
     */
    static method GenerateModel3DPrimitive(mapSymbol: VectorMapSymbol, model3D: Model3D,
                                           customMaterialColors: map<string, ColorARGB>)
      requires ValidModel3D(model3D)
      modifies mapSymbol
      ensures mapSymbol.scaleType == old(mapSymbol.scaleType) && mapSymbol.scale == old(mapSymbol.scale)
      ensures mapSymbol.primitiveType == PrimitiveType.Triangles
      ensures mapSymbol.verticesAndIndices != null && fresh(mapSymbol.verticesAndIndices)
      ensures var buffer := mapSymbol.verticesAndIndices;
              && buffer.verticesWithNormals != null
              && fresh(buffer.verticesWithNormals)
              && buffer.verticesCount == buffer.verticesWithNormals.Length == |model3D.vertices|
              && (forall i :: 0 <= i < |model3D.vertices| ==>
                    buffer.verticesWithNormals[i] == VertexWithNormals(
                      model3D.vertices[i].position,
                      model3D.vertices[i].normal,
                      VertexColor(model3D, model3D.vertices[i], customMaterialColors)))
              && buffer.vertices == null
              && buffer.HasNoIndicesOrPlacement()
              && buffer.isDenseObject
    {
      mapSymbol.primitiveType := PrimitiveType.Triangles;

      var verticesAndIndices := new VerticesAndIndices();
      verticesAndIndices.indices := null;
      verticesAndIndices.indicesCount := 0;

      verticesAndIndices.verticesCount := |model3D.vertices|;
      var verticesWithNormals := new VertexWithNormals[verticesAndIndices.verticesCount];
      verticesAndIndices.verticesWithNormals := verticesWithNormals;
      var p := 0;  // the vertex being written

      var vertexIndex := 0;
      while vertexIndex < verticesAndIndices.verticesCount
        modifies verticesWithNormals
        invariant 0 <= vertexIndex <= verticesAndIndices.verticesCount
        invariant p == vertexIndex
        invariant forall i :: 0 <= i < p ==>
                    verticesWithNormals[i] == VertexWithNormals(
                      model3D.vertices[i].position,
                      model3D.vertices[i].normal,
                      VertexColor(model3D, model3D.vertices[i], customMaterialColors))
      {
        var modelVertex := model3D.vertices[vertexIndex];
        verticesWithNormals[p] := VertexWithNormals(
          modelVertex.position,
          modelVertex.normal,
          VertexColor(model3D, modelVertex, customMaterialColors));
        p := p + 1;
        vertexIndex := vertexIndex + 1;
      }
      verticesAndIndices.isDenseObject := true;

      mapSymbol.SetVerticesAndIndices(verticesAndIndices);
    }
  }
}
