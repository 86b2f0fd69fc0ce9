/** The C record `ss_plugin_extract_field`: one field the framework asks a
    plugin to extract, and the slots the plugin answers in. */
module CExtract {
  import opened SdkTypes

  class ExtractField {
    const fieldId: int
    const field: string
    const arg: string
    const ftype: int
    var fieldPresent: bool
    /** res_str as the C string it points to; None is NULL. */
    var resStr: Option<string>
    var resU64: int

    constructor Request(fieldId: int, field: string, arg: string, ftype: int)
      ensures this.fieldId == fieldId && this.field == field && this.arg == arg && this.ftype == ftype
      ensures !fieldPresent && resStr.None? && resU64 == 0
    {
      this.fieldId := fieldId;
      this.field := field;
      this.arg := arg;
      this.ftype := ftype;
      fieldPresent := false;
      resStr := None;
      resU64 := 0;
    }
  }
}
