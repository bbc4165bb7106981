/** The app-wide theme: a name, "light" at start, that a toggle flips, and
    the colour palette chosen from it. */
module Theme {

  datatype Palette = Palette(background: string, card: string, text: string,
                             subText: string, primary: string, border: string)

  const DARK := Palette("#0F172A", "#1E293B", "#F8FAFC", "#CBD5E1", "#38BDF8", "#334155")
  const LIGHT := Palette("#F8FAFC", "#FFFFFF", "#0F172A", "#475569", "#2563EB", "#E2E8F0")

  /** The theme after a toggle: "dark" becomes "light", anything else "dark". */
  function Toggled(theme: string): (r: string)
    ensures r == "dark" || r == "light"
    ensures r == "dark" <==> theme != "dark"
  {
    if theme == "dark" then "light" else "dark"
  }

  /** The palette for a theme: the dark one exactly for "dark". */
  function PaletteFor(theme: string): (p: Palette)
    ensures p == DARK <==> theme == "dark"
    ensures p == LIGHT <==> theme != "dark"
  {
    if theme == "dark" then DARK else LIGHT
  }

  /** Toggling twice restores "light" and "dark", and turns any other name
      into "light"; each toggle switches the palette. */
  lemma ToggleTwice(theme: string)
    ensures theme == "light" || theme == "dark" ==> Toggled(Toggled(theme)) == theme
    ensures theme != "light" && theme != "dark" ==> Toggled(Toggled(theme)) == "light"
    ensures PaletteFor(Toggled(theme)) != PaletteFor(theme)
  {
    assert "light"[0] != "dark"[0];
    assert DARK.background[1] != LIGHT.background[1];
  }

  class ThemeProvider {
    var theme: string

    constructor()
      ensures theme == "light" && Colors() == LIGHT
    {
      theme := "light";
    }

    function Colors(): (p: Palette)
      reads this
      ensures p == DARK <==> theme == "dark"
    {
      PaletteFor(theme)
    }

    /** `toggleTheme` */
    method Toggle()
      modifies this
      ensures theme == Toggled(old(theme))
      ensures Colors() != old(Colors())
    {
      theme := Toggled(theme);
    }
  }

  /** A scenario driver: from the start, the themes alternate dark, light, dark, ... */
  method ToggleRepeatedly(n: nat) returns (themes: seq<string>)
    ensures |themes| == n
    ensures forall i :: 0 <= i < n ==> themes[i] == (if i % 2 == 0 then "dark" else "light")
  {
    var provider := new ThemeProvider();
    themes := [];
    var k := 0;
    while k < n
      invariant 0 <= k <= n && |themes| == k
      invariant provider.theme == (if k % 2 == 0 then "light" else "dark")
      invariant forall i :: 0 <= i < k ==> themes[i] == (if i % 2 == 0 then "dark" else "light")
    {
      provider.Toggle();
      themes := themes + [provider.theme];
      k := k + 1;
    }
  }
}
