/** Compile-time sizes of the experimental-mode button. */
module ButtonGeometry {

  /** Side of the square button widget, in pixels. */
  const BtnSize: int := 192

  /** Side of the square icon: a quarter of the button, truncated, times three. */
  const ImgSize: int := (BtnSize / 4) * 3

  /** The icon is 144 pixels, and half of it stays inside the button's radius,
      so the unrotated icon drawn about the centre lies within the round background. */
  lemma IconFitsInButton()
    ensures ImgSize == 144
    ensures ImgSize < BtnSize
    ensures ImgSize / 2 == 72 && BtnSize / 2 == 96
    ensures ImgSize / 2 < BtnSize / 2
  {
  }
}
