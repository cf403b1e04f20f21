/** The record shapes of the chart: a dataset row, the margin and the
    construction options. */
module Types {

  /** The `Time` field of a row: the "M:SS" text as fetched, or, once the
      dataset has been normalised, a moment given as its offset in seconds
      from 1970-01-01 00:00. */
  datatype TimeField = Text(text: string) | Moment(offset: nat)

  /** One rider's result (`DatasetItem`). */
  datatype DatasetItem = DatasetItem(
    time: TimeField,
    place: int,
    seconds: int,
    name: string,
    year: int,
    nationality: string,
    doping: string,
    url: string)

  datatype ChartMargin = ChartMargin(top: int, right: int, bottom: int, left: int)
  {
    /** All four sides are the same. */
    predicate Uniform() {
      top == right == bottom == left
    }
  }

  /** What the chart is built from; the mount element is not modelled. */
  datatype ChartOptions = ChartOptions(
    title: string,
    description: string,
    width: int,
    height: int,
    spacing: int)

}
