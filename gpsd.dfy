/**
 * The types the logger takes from the gpsd protocol crate: a report is one
 * of five tagged cases, and reading the next report may fail.
 */
module Gpsd {
  import opened Wrappers

  /** The daemon-defined fields of a report; the logger never looks inside them. */
  type Fields = string

  /** `ResponseData`: a report of the positioning daemon, one case per report class. */
  datatype ResponseData =
    | Device(body: Fields)
    | Tpv(body: Fields)
    | Sky(body: Fields)
    | Pps(body: Fields)
    | Gst(body: Fields)
  {
    /** The tag a report is classified by. */
    function Kind(): Tag {
      match this
      case Device(_) => DeviceTag
      case Tpv(_) => TpvTag
      case Sky(_) => SkyTag
      case Pps(_) => PpsTag
      case Gst(_) => GstTag
    }
  }

  datatype Tag = DeviceTag | TpvTag | SkyTag | PpsTag | GstTag

  /** The error `get_data` reports when no report could be read. */
  datatype GpsdError = GpsdError(message: string)

  /** What one call of `get_data` yields: a report, or the error that replaced it. */
  type Reading = Result<ResponseData, GpsdError>
}
