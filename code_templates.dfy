/**
 * The literal file bodies the code generator writes (`code_generator.py`). They take part in
 * the model only as values; what is proved is which files receive them.
 */
module CodeTemplates {

  /** The MIT licence text of `_generate_license`. */
  const MitLicense: string :=
    "MIT License\n"
    + "\n"
    + "Copyright (c) 2024\n"
    + "\n"
    + "Permission is hereby granted, free of charge, to any person obtaining a copy\n"
    + "of this software and associated documentation files (the \"Software\"), to deal\n"
    + "in the Software without restriction, including without limitation the rights\n"
    + "to use, copy, modify, merge, publish, distribute, sublicense, and/or sell\n"
    + "copies of the Software, and to permit persons to whom the Software is\n"
    + "furnished to do so, subject to the following conditions:\n"
    + "\n"
    + "The above copyright notice and this permission notice shall be included in all\n"
    + "copies or substantial portions of the Software.\n"
    + "\n"
    + "THE SOFTWARE IS PROVIDED \"AS IS\", WITHOUT WARRANTY OF ANY KIND, EXPRESS OR\n"
    + "IMPLIED, INCLUDING BUT NOT LIMITED TO THE WARRANTIES OF MERCHANTABILITY,\n"
    + "FITNESS FOR A PARTICULAR PURPOSE AND NONINFRINGEMENT. IN NO EVENT SHALL THE\n"
    + "AUTHORS OR COPYRIGHT HOLDERS BE LIABLE FOR ANY CLAIM, DAMAGES OR OTHER\n"
    + "LIABILITY, WHETHER IN AN ACTION OF CONTRACT, TORT OR OTHERWISE, ARISING FROM,\n"
    + "OUT OF OR IN CONNECTION WITH THE SOFTWARE OR THE USE OR OTHER DEALINGS IN THE\n"
    + "SOFTWARE.\n"

  /** `app/main.py` of a Flask web app. */
  const FlaskMain: string :=
    "from flask import Flask, render_template, jsonify\n"
    + "\n"
    + "app = Flask(__name__)\n"
    + "\n"
    + "@app.route('/')\n"
    + "def index():\n"
    + "    return render_template('index.html')\n"
    + "\n"
    + "@app.route('/api/health')\n"
    + "def health():\n"
    + "    return jsonify({'status': 'healthy'})\n"
    + "\n"
    + "if __name__ == '__main__':\n"
    + "    app.run(debug=True, host='0.0.0.0', port=5000)\n"

  /** `app/templates/index.html` of a Flask web app. */
  const FlaskIndexHtml: string :=
    "<!DOCTYPE html>\n"
    + "<html lang=\"de\">\n"
    + "<head>\n"
    + "    <meta charset=\"UTF-8\">\n"
    + "    <meta name=\"viewport\" content=\"width=device-width, initial-scale=1.0\">\n"
    + "    <title>My App</title>\n"
    + "</head>\n"
    + "<body>\n"
    + "    <h1>Welcome to the App!</h1>\n"
    + "</body>\n"
    + "</html>\n"

  /** `src/main.py` of a command-line tool. */
  const CliMain: string :=
    "#!/usr/bin/env python3\n"
    + "\"\"\"\n"
    + "Main CLI Application\n"
    + "\"\"\"\n"
    + "import argparse\n"
    + "import sys\n"
    + "\n"
    + "def main():\n"
    + "    parser = argparse.ArgumentParser(description='CLI Tool')\n"
    + "    parser.add_argument('command', help='Command to execute')\n"
    + "    parser.add_argument('--verbose', '-v', action='store_true', help='Verbose output')\n"
    + "    \n"
    + "    args = parser.parse_args()\n"
    + "    \n"
    + "    print(f\"Executing: {args.command}\")\n"
    + "    \n"
    + "    if args.verbose:\n"
    + "        print(\"Verbose mode enabled\")\n"
    + "\n"
    + "if __name__ == '__main__':\n"
    + "    main()\n"

  /** `api/main.py` of a FastAPI service. */
  const FastApiMain: string :=
    "from fastapi import FastAPI\n"
    + "from fastapi.middleware.cors import CORSMiddleware\n"
    + "\n"
    + "app = FastAPI(title=\"My API\", version=\"1.0.0\")\n"
    + "\n"
    + "# CORS Configuration\n"
    + "app.add_middleware(\n"
    + "    CORSMiddleware,\n"
    + "    allow_origins=[\"*\"],\n"
    + "    allow_credentials=True,\n"
    + "    allow_methods=[\"*\"],\n"
    + "    allow_headers=[\"*\"],\n"
    + ")\n"
    + "\n"
    + "@app.get(\"/\")\n"
    + "async def root():\n"
    + "    return {\"message\": \"Welcome to the API\"}\n"
    + "\n"
    + "@app.get(\"/health\")\n"
    + "async def health():\n"
    + "    return {\"status\": \"healthy\"}\n"
    + "\n"
    + "if __name__ == \"__main__\":\n"
    + "    import uvicorn\n"
    + "    uvicorn.run(app, host=\"0.0.0.0\", port=8000)\n"

  /** `src/main.py` of any other Python project. */
  const GenericMain: string :=
    "\"\"\"\n"
    + "Main module\n"
    + "\"\"\"\n"
    + "\n"
    + "def hello_world():\n"
    + "    \"\"\"Main function\"\"\"\n"
    + "    print(\"Hello, World!\")\n"
    + "    return \"Hello, World!\"\n"
    + "\n"
    + "if __name__ == '__main__':\n"
    + "    hello_world()\n"

  /** `src/App.<ext>` of a React web app. */
  const ReactApp: string :=
    "import React from 'react';\n"
    + "\n"
    + "function App() {\n"
    + "  return (\n"
    + "    <div className=\"App\">\n"
    + "      <h1>Welcome to the App</h1>\n"
    + "    </div>\n"
    + "  );\n"
    + "}\n"
    + "\n"
    + "export default App;\n"

  /** `src/index.<ext>` of a React web app. */
  const ReactIndex: string :=
    "import React from 'react';\n"
    + "import ReactDOM from 'react-dom/client';\n"
    + "import App from './App';\n"
    + "\n"
    + "const root = ReactDOM.createRoot(document.getElementById('root'));\n"
    + "root.render(\n"
    + "  <React.StrictMode>\n"
    + "    <App />\n"
    + "  </React.StrictMode>\n"
    + ");\n"

  /** `src/index.<ext>` of an Express API. */
  const ExpressIndex: string :=
    "const express = require('express');\n"
    + "const app = express();\n"
    + "const PORT = process.env.PORT || 3000;\n"
    + "\n"
    + "app.use(express.json());\n"
    + "\n"
    + "app.get('/', (req, res) => {\n"
    + "  res.json({ message: 'Welcome to the API' });\n"
    + "});\n"
    + "\n"
    + "app.get('/health', (req, res) => {\n"
    + "  res.json({ status: 'healthy' });\n"
    + "});\n"
    + "\n"
    + "app.listen(PORT, () => {\n"
    + "  console.log(`Server running on port ${PORT}`);\n"
    + "});\n"

  /** `src/index.<ext>` of any other JavaScript project. */
  const HelloIndex: string :=
    "console.log('Hello, World!');\n"
    + "\n"
    + "export function main() {\n"
    + "  console.log('Application started');\n"
    + "}\n"
    + "\n"
    + "main();\n"

  /** `tsconfig.json` of a TypeScript project. */
  const TsConfig: string :=
    "{\n"
    + "  \"compilerOptions\": {\n"
    + "    \"target\": \"ES2020\",\n"
    + "    \"module\": \"commonjs\",\n"
    + "    \"outDir\": \"./dist\",\n"
    + "    \"rootDir\": \"./src\",\n"
    + "    \"strict\": true,\n"
    + "    \"esModuleInterop\": true,\n"
    + "    \"skipLibCheck\": true,\n"
    + "    \"forceConsistentCasingInFileNames\": true\n"
    + "  },\n"
    + "  \"include\": [\"src/**/*\"],\n"
    + "  \"exclude\": [\"node_modules\"]\n"
    + "}\n"

  /** `src/main/java/com/example/Main.java`. */
  const JavaMain: string :=
    "package com.example;\n"
    + "\n"
    + "public class Main {\n"
    + "    public static void main(String[] args) {\n"
    + "        System.out.println(\"Hello, World!\");\n"
    + "    }\n"
    + "}\n"

  /** `cmd/main.go`. */
  const GoMain: string :=
    "package main\n"
    + "\n"
    + "import \"fmt\"\n"
    + "\n"
    + "func main() {\n"
    + "    fmt.Println(\"Hello, World!\")\n"
    + "}\n"

  /** `tests/test_main.py`. */
  const PythonTest: string :=
    "import pytest\n"
    + "\n"
    + "def test_example():\n"
    + "    assert True\n"
    + "\n"
    + "def test_hello_world():\n"
    + "    result = \"Hello, World!\"\n"
    + "    assert result == \"Hello, World!\"\n"

  /** `tests/main.test.<ext>`. */
  const JsTest: string :=
    "describe('Main Tests', () => {\n"
    + "  test('example test', () => {\n"
    + "    expect(true).toBe(true);\n"
    + "  });\n"
    + "});\n"

  /** The fixed text of `pom.xml` before and after the artifact id. */
  const PomHead: string :=
    "<?xml version=\"1.0\" encoding=\"UTF-8\"?>\n"
    + "<project xmlns=\"http://maven.apache.org/POM/4.0.0\"\n"
    + "         xmlns:xsi=\"http://www.w3.org/2001/XMLSchema-instance\"\n"
    + "         xsi:schemaLocation=\"http://maven.apache.org/POM/4.0.0 \n"
    + "         http://maven.apache.org/xsd/maven-4.0.0.xsd\">\n"
    + "    <modelVersion>4.0.0</modelVersion>\n"
    + "    \n"
    + "    <groupId>com.example</groupId>\n"
    + "    <artifactId>"
  const PomTail: string :=
    "</artifactId>\n"
    + "    <version>1.0.0</version>\n"
    + "    \n"
    + "    <properties>\n"
    + "        <maven.compiler.source>17</maven.compiler.source>\n"
    + "        <maven.compiler.target>17</maven.compiler.target>\n"
    + "    </properties>\n"
    + "    \n"
    + "    <dependencies>\n"
    + "        <!-- Add dependencies here -->\n"
    + "    </dependencies>\n"
    + "</project>\n"

  /** The fixed text of `go.mod` after the module line. */
  const GoModTail: string :=
    "go 1.21\n"
    + "\n"
    + "require (\n"
    + "    // Add dependencies here\n"
    + ")\n"

  /** The fixed start of the CI workflow, up to the language of its setup step. */
  const CiHead: string :=
    "name: CI\n"
    + "\n"
    + "on:\n"
    + "  push:\n"
    + "    branches: [ main ]\n"
    + "  pull_request:\n"
    + "    branches: [ main ]\n"
    + "\n"
    + "jobs:\n"
    + "  test:\n"
    + "    runs-on: ubuntu-latest\n"
    + "    \n"
    + "    steps:\n"
    + "    - uses: actions/checkout@v3\n"
    + "    \n"
    + "    - name: Setup "

  /** README sections that do not depend on the plan. */
  const ReadmeFeatureLines: string :=
    "- Clean and maintainable code structure\n"
    + "- Comprehensive documentation\n"
    + "- Ready for deployment\n"
    + "\n"
    + "## \U{1f4cb} Prerequisites\n"
    + "\n"
  const ReadmeUsage: string :=
    "\n"
    + "## \U{1f4bb} Usage\n"
    + "\n"
    + "```bash\n"
    + "# Add usage instructions here\n"
    + "```\n"
    + "\n"
    + "## \U{1f9ea} Testing\n"
    + "\n"
  const PipInstall: string := "```bash\n" + "pip install -r requirements.txt\n" + "```\n"
  const NpmInstall: string := "```bash\n" + "npm install\n" + "# or\n" + "yarn install\n" + "```\n"
  const PytestRun: string := "```bash\n" + "pytest\n" + "```\n"
  const NpmTestRun: string := "```bash\n" + "npm test\n" + "```\n"
  const ReadmeAuthor: string :=
    " License - see LICENSE file for details\n"
    + "\n"
    + "## \U{1f464} Author\n"
    + "\n"
    + "Generated with GitHub Auto-Coder\n"

  /** The fixed texts of the generated files, as one value: the generator's functions take it as a
      parameter, so what is proved about them holds whatever the texts are. */
  datatype Templates = Templates(
    mitLicense: string,
    flaskMain: string,
    flaskIndexHtml: string,
    cliMain: string,
    fastApiMain: string,
    genericMain: string,
    reactApp: string,
    reactIndex: string,
    expressIndex: string,
    helloIndex: string,
    tsConfig: string,
    javaMain: string,
    goMain: string,
    pythonTest: string,
    jsTest: string,
    pomHead: string,
    pomTail: string,
    goModTail: string,
    ciHead: string,
    readmeFeatureLines: string,
    readmeUsage: string,
    pipInstall: string,
    npmInstall: string,
    pytestRun: string,
    npmTestRun: string,
    readmeAuthor: string)

  /** The texts `code_generator.py` writes. */
  const SourceTemplates := Templates(
    MitLicense,
    FlaskMain,
    FlaskIndexHtml,
    CliMain,
    FastApiMain,
    GenericMain,
    ReactApp,
    ReactIndex,
    ExpressIndex,
    HelloIndex,
    TsConfig,
    JavaMain,
    GoMain,
    PythonTest,
    JsTest,
    PomHead,
    PomTail,
    GoModTail,
    CiHead,
    ReadmeFeatureLines,
    ReadmeUsage,
    PipInstall,
    NpmInstall,
    PytestRun,
    NpmTestRun,
    ReadmeAuthor)
}
