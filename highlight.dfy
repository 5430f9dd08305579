/**
 * The look of the scene as a function of the selected and hovered ids:
 * orbit line opacity, body glow, the sun's colour, the belt's colour and the
 * label colour, next to the look the rebuild gives each object when it is
 * created.
 */
module Highlight {
  import opened Common
  import opened Bodies
  import opened SceneGraph

  const White: nat := 0xFFFFFF
  const Black: nat := 0x000000
  const Gold: nat := 0xFFD700
  const Cerulean: nat := 0x007BA7
  const FallbackGrey: nat := 0xAAAAAA
  const MinorLineColor: string := "#888888"
  const PrimaryColor: string := "hsl(var(--primary))"
  const MinorLabelColor: string := "#FFFFFF"

  // ------------------------------------------------------------ creation

  /** Opacity of a new orbit line: 0.9, lowered to 0.4 for minor bodies, reset to 0.9 for earth. */
  function CreationLineOpacity(id: string): real {
    var opacity := if IsMinorId(id) then 0.4 else 0.9;
    if id == "earth" then 0.9 else opacity
  }

  /** Material of a new orbit line: the body colour, grey for minor bodies. */
  function CreationLineMaterial(b: Body): Material {
    LineBasic(Css(if IsMinorId(b.id) then MinorLineColor else b.color), CreationLineOpacity(b.id))
  }

  /** Material of a new planet or comet body: glowing in its own colour unless minor. */
  function CreationBodyMaterial(b: Body): Material {
    var minor := IsMinorId(b.id);
    Standard(Css(b.color), if minor then Hex(Black) else Css(b.color), if minor then 0.0 else 0.6)
  }

  const CreationStarMaterial: Material := Basic(Hex(Gold), 1.0)
  const CreationBeltDust: Material := PointsMat(Hex(Cerulean), 0.45)

  // ------------------------------------------------------------- effects

  /** The orbit effect's base opacity, with the same earth override. */
  function BaseOpacity(id: string): (r: real)
    ensures r == 0.4 <==> IsMinorId(id)
    ensures r == 0.9 <==> !IsMinorId(id)
  {
    var base := if IsMinorId(id) then 0.4 else 0.9;
    if id == "earth" then 0.9 else base
  }

  /** Line opacity: full when hovered or selected, the base opacity otherwise. */
  function OrbitOpacity(id: string, selected: Option<string>, hovered: Option<string>): (r: real)
    ensures r == 1.0 <==> hovered == Some(id) || selected == Some(id)
    ensures r != 1.0 ==> r == BaseOpacity(id)
  {
    if hovered == Some(id) || selected == Some(id) then 1.0 else BaseOpacity(id)
  }

  /** `earth` is not a minor body, so the earth override never changes anything. */
  lemma EarthOverrideRedundant(id: string)
    ensures BaseOpacity(id) == (if IsMinorId(id) then 0.4 else 0.9)
    ensures CreationLineOpacity(id) == BaseOpacity(id)
  {
    if id == "earth" {
      assert !IsAsteroidId(id) && !IsCometId(id);
    }
  }

  /** With nothing hovered or selected a line shows the opacity it was created with. */
  lemma IdleOrbitIsCreation(id: string)
    ensures OrbitOpacity(id, None, None) == CreationLineOpacity(id)
  {
    EarthOverrideRedundant(id);
  }

  /** The glow of a body: white and full when selected, otherwise as created (grey for a missing colour). */
  function Emissive(id: string, color: string, isSelected: bool): (r: (Color, real))
    ensures isSelected ==> r == (Hex(White), 1.0)
    ensures !isSelected && IsMinorId(id) ==> r == (Hex(Black), 0.0)
    ensures !isSelected && !IsMinorId(id) ==> r.1 == 0.6 && (r.0 == Hex(FallbackGrey) <==> color == "")
    ensures !isSelected && !IsMinorId(id) && color != "" ==> r == (Css(color), 0.6)
  {
    if isSelected then (Hex(White), 1.0)
    else
      var original := if color == "" then Hex(FallbackGrey) else Css(color);
      if IsMinorId(id) then (Hex(Black), 0.0) else (original, 0.6)
  }

  /** Deselecting a body restores the glow it was created with, unless its colour is empty. */
  lemma DeselectRestoresGlow(b: Body)
    requires b.color != ""
    ensures var (c, i) := Emissive(b.id, b.color, false);
            CreationBodyMaterial(b) == Standard(Css(b.color), c, i)
  {
  }

  /** The sun: white when selected, its creation gold otherwise. */
  function StarColor(isSelected: bool): (r: Color)
    ensures r == Hex(White) <==> isSelected
    ensures !isSelected ==> Basic(r, 1.0) == CreationStarMaterial
  {
    if isSelected then Hex(White) else Hex(Gold)
  }

  /** The belt dust: white and brighter when the belt is selected, its creation look otherwise. */
  function BeltDust(beltSelected: bool): (r: Material)
    ensures r.PointsMat?
    ensures !beltSelected ==> r == CreationBeltDust
    ensures beltSelected ==> r == PointsMat(Hex(White), 0.7) && r.opacity > CreationBeltDust.opacity
  {
    if beltSelected then PointsMat(Hex(White), 0.7) else PointsMat(Hex(Cerulean), 0.45)
  }

  /** The glow of every belt meteor: white at half intensity when the belt is selected, none otherwise. */
  function BeltMeteorGlow(beltSelected: bool): (r: (Color, real))
    ensures beltSelected ==> r == (Hex(White), 0.5)
    ensures !beltSelected ==> r == (Hex(Black), 0.0)
  {
    if beltSelected then (Hex(White), 0.5) else (Hex(Black), 0.0)
  }

  /** `getLabelColor`: the theme colour for the selected label, white for minor bodies, else the record's colour. */
  function LabelColor(id: string, color: string, selected: Option<string>): (r: string)
    ensures selected == Some(id) ==> r == PrimaryColor
    ensures selected != Some(id) ==> r == (if IsMinorId(id) then MinorLabelColor else color)
  {
    if selected == Some(id) then PrimaryColor
    else if IsAsteroidId(id) then MinorLabelColor
    else if IsCometId(id) then MinorLabelColor
    else color
  }

  /** Of two labels with different ids and ordinary colours, at most one is in the theme colour. */
  lemma OneLabelHighlighted(a: string, ca: string, b: string, cb: string, selected: Option<string>)
    requires a != b && ca != PrimaryColor && cb != PrimaryColor
    ensures !(LabelColor(a, ca, selected) == PrimaryColor && LabelColor(b, cb, selected) == PrimaryColor)
  {
  }
}
