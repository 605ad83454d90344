/**
 * Option and Result: Option for the empty StartingRange and EndingRange cells
 * getBillableBandCsv reads, Result for the exceptions calculate_price and
 * get_partition_keys raise.
 */
module Wrappers {

  datatype Option<+T> = None | Some(value: T)

  datatype Result<+R, +E> = Success(value: R) | Failure(error: E)
}
