/** Option and Result, and the Python exceptions the extraction core can raise. */
module Wrappers {

  datatype Option<+T> = None | Some(value: T)

  /** The exceptions that end a run: any of them propagates out of the pipeline
      and the lists built so far are discarded. */
  datatype Fault =
    | IndexError      // `wb.sheetnames[localSheetId]` with an out-of-range id
    | KeyError        // `wb[sheet_name]` for a sheet the workbook does not have
    | AttributeError  // `None.value`: a global name whose literal text is empty
    | TypeError       // `x in None`: update_variables on a formula with no candidate tokens

  datatype Result<+T> = Ok(value: T) | Err(fault: Fault)
}
