/** What the annotation engine uses of the host chart library. Only the data
    it reads are modelled; the library's own behaviour is not. */
module Host {

  /** An axis of a series, reduced to its data-to-pixel transform
      (`axis.toPixels`), which the engine treats as given. */
  datatype Axis = Axis(toPixels: real -> real)

  /** The drawing surface of one chart (`series.chart.renderer`), by identity. */
  datatype Renderer = Renderer(chart: nat)

  /** The series a point belongs to: its two axes and its chart's renderer. */
  datatype Series = Series(xAxis: Axis, yAxis: Axis, renderer: Renderer)

  /** A clickable data point. It is an object of the host library, so two
      points are the same point only when they are the same object. */
  class Point {
    const x: real
    const y: real
    const series: Series

    constructor (x: real, y: real, series: Series)
      ensures this.x == x && this.y == y && this.series == series
    {
      this.x := x;
      this.y := y;
      this.series := series;
    }
  }
}
