/** The parts of a VS Code text document the extension looks at. */
module Documents {

  /** `vscode.Uri`: its scheme (`file`, `untitled`, ...) and the rest. */
  datatype Uri = Uri(scheme: string, path: string)

  /** `vscode.TextDocument`: where it lives, its language and whether it has
      unsaved changes. The file name only goes into the linter's command line. */
  datatype Document = Document(uri: Uri, languageId: string, fileName: string, isDirty: bool)

  /** Only GDScript documents backed by a file (URI scheme `file`) are
      linted, saved or not. */
  predicate Lintable(doc: Document) {
    doc.uri.scheme == "file" && doc.languageId == "gdscript"
  }
}
