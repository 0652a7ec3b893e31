/**
 * Plane vectors, rectangles and camera views (the parts of SFML's
 * sf::Vector2f, sf::FloatRect and sf::View that the frame pipeline uses).
 * Coordinates are exact reals: float rounding is not modelled.
 */
module Geometry {

  datatype Vec2 = Vec2(x: real, y: real)

  /** An axis-aligned rectangle given by its top-left corner and its size. */
  datatype Rect = Rect(left: real, top: real, width: real, height: real)

  /**
   * A camera: the world-space area it shows is given by its centre and
   * size; `viewport` is where on the surface it is drawn, as fractions of
   * the surface size.  (Rotation stays 0 throughout and is not modelled.)
   */
  datatype View = View(center: Vec2, size: Vec2, viewport: Rect)

  /** sf::View's default: the world square (0, 0, 1000, 1000) on the whole surface. */
  const DefaultView := View(Vec2(500.0, 500.0), Vec2(1000.0, 1000.0), Rect(0.0, 0.0, 1.0, 1.0))

  /** The world-space rectangle a view shows. */
  function Visible(v: View): Rect
  {
    Rect(v.center.x - v.size.x / 2.0, v.center.y - v.size.y / 2.0, v.size.x, v.size.y)
  }

  /** sf::View::reset: make the view show exactly `r`; the viewport is kept. */
  function Reset(v: View, r: Rect): (res: View)
    ensures Visible(res) == r
    ensures res.viewport == v.viewport
  {
    View(Vec2(r.left + r.width / 2.0, r.top + r.height / 2.0), Vec2(r.width, r.height), v.viewport)
  }

  /** sf::View::setCenter: move the view; its size and viewport are kept. */
  function SetCenter(v: View, p: Vec2): (res: View)
    ensures res.center == p
    ensures res.size == v.size && res.viewport == v.viewport
    ensures Visible(res).width == Visible(v).width && Visible(res).height == Visible(v).height
  {
    v.(center := p)
  }

  /** sf::View::setViewport: draw the view in `r`; what it shows is kept. */
  function SetViewport(v: View, r: Rect): (res: View)
    ensures res.viewport == r && Visible(res) == Visible(v)
  {
    v.(viewport := r)
  }
}
