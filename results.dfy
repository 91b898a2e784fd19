/** Option and Result values shared by every generation of the zome.
    Errors are plain strings: both hdk generations turn every failure into a
    message (`ZomeApiError::Internal`, `WasmError::Guest`), and the zome only
    ever prepends breadcrumbs to it. */
module Results {

  datatype Option<+T> = None | Some(value: T)

  datatype Result<+T> = Ok(value: T) | Err(msg: string)
}
