/** The error codes the services return. */
module Errors {
  datatype ErrCode = ERR_OK | ERR_INVALID_VALUE | ERR_INVALID_OPERATION | ERR_NO_INIT | ERR_NAME_NOT_FOUND
}
